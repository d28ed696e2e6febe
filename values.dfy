/**
 * The small total functions of the conversion: ability value to die, difficulty
 * class to bonus, weapon range bands, weapon notes, additional stats and the
 * capitalisation of a creature type. JavaScript numbers are `real`s here and
 * `Math.floor`, `Math.ceil` and `Math.round` are written out.
 */
module Values {
  import opened Wrappers
  import opened JsValues
  import opened Strings

  /** `Math.ceil`. */
  function Ceil(x: real): (c: int)
    ensures (c - 1) as real < x <= c as real
  {
    -((-x).Floor)
  }

  /** `Math.round`: the nearest integer, halves rounded up. */
  function Round(x: real): (n: int)
    ensures x - 0.5 < n as real <= x + 0.5
  {
    (x + 0.5).Floor
  }

  // ---------------------------------------------------------------------------
  // convertValue

  /** A trait die of the target rule set: a die size and a flat modifier. */
  datatype Die = Die(sides: int, modifier: int)

  /**
   * convertValue: a value on the shifted ability scale (score minus 9) becomes
   * a die. Each two points up to 8 add a die step; above 8 the die stays a d12
   * and every three points beyond 11 add one to the modifier.
   */
  function ConvertValue(value: real, modifier: int): (d: Die)
    ensures d.sides == 4 <==> value <= 2.0
    ensures d.sides == 6 <==> 2.0 < value <= 4.0
    ensures d.sides == 8 <==> 4.0 < value <= 6.0
    ensures d.sides == 10 <==> 6.0 < value <= 8.0
    ensures d.sides == 12 <==> 8.0 < value
    ensures value <= 8.0 ==> d.modifier == modifier
    ensures value > 8.0 ==>
      ((d.modifier - modifier - 1) * 3) as real < value - 11.0 <= ((d.modifier - modifier) * 3) as real
  {
    if value <= 2.0 then Die(4, modifier)
    else if value <= 4.0 then Die(6, modifier)
    else if value <= 6.0 then Die(8, modifier)
    else if value <= 8.0 then Die(10, modifier)
    else Die(12, Ceil((value - 11.0) / 3.0) + modifier)
  }

  /** The die never shrinks as the value grows, and neither does the bonus. */
  lemma ConvertValueMonotone(v1: real, v2: real, modifier: int)
    requires v1 <= v2
    ensures ConvertValue(v1, modifier).sides <= ConvertValue(v2, modifier).sides
    ensures ConvertValue(v1, modifier).modifier <= ConvertValue(v2, modifier).modifier
  {
  }

  /** Between 8 and 11 the d12 carries no bonus: the modifier passes through. */
  lemma ConvertValueNoBonusUpToEleven(value: real, modifier: int)
    requires 8.0 < value <= 11.0
    ensures ConvertValue(value, modifier) == Die(12, modifier)
  {
  }

  /** Above 8, three more points give one more point of modifier. */
  lemma ConvertValueBonusStep(value: real, modifier: int)
    requires value > 8.0
    ensures ConvertValue(value + 3.0, modifier).modifier == ConvertValue(value, modifier).modifier + 1
  {
  }

  // ---------------------------------------------------------------------------
  // dcToModifier

  /** The bonus or penalty a difficulty class stands for; `None`-free over all integers. */
  function DcModifier(dc: int): (m: int)
    ensures m == 4 <==> dc <= 7
    ensures m == 2 <==> 7 < dc <= 12
    ensures m == 0 <==> 12 < dc <= 17
    ensures m == -2 <==> 17 < dc <= 22
    ensures m == -4 <==> 22 < dc <= 27
    ensures m == -8 <==> 27 < dc
  {
    if dc <= 7 then 4
    else if dc <= 12 then 2
    else if dc <= 17 then 0
    else if dc <= 22 then -2
    else if dc <= 27 then -4
    else -8
  }

  /** A higher difficulty never gives a better modifier. */
  lemma DcModifierAntitone(dc1: int, dc2: int)
    requires dc1 <= dc2
    ensures DcModifier(dc2) <= DcModifier(dc1)
  {
  }

  const Dice: string := "\U{1F3B2}"

  /** The text shown for a modifier: signed, followed by a die except for the last bucket. */
  function DcLabel(m: int): string {
    if m == 4 then "+4 " + Dice
    else if m == 2 then "+2 " + Dice
    else if m == 0 then Dice
    else if m == -2 then "-2 " + Dice
    else if m == -4 then "-4 " + Dice
    else "-8"
  }

  const DcTitlePrefix: string := "<span title=\"DC "

  /** Reads the difficulty class back out of the `title` attribute of a rendered span. */
  function DcTitle(html: string): Option<nat> {
    if |html| >= |DcTitlePrefix| && html[..|DcTitlePrefix|] == DcTitlePrefix then
      var rest := html[|DcTitlePrefix|..];
      var k := DigitRun(rest);
      if 0 < k < |rest| && rest[k] == '"' then Some(ParseNat(rest[..k])) else None
    else None
  }

  /** Whatever follows the digits, provided it starts with the closing quote, the title reads back. */
  lemma DcTitleOf(dc: nat, tail: string)
    requires |tail| > 0 && tail[0] == '"'
    ensures DcTitle(DcTitlePrefix + NatToDecimal(dc) + tail) == Some(dc)
  {
    var digits := NatToDecimal(dc);
    var html := DcTitlePrefix + digits + tail;
    assert html[..|DcTitlePrefix|] == DcTitlePrefix;
    assert html[|DcTitlePrefix|..] == digits + tail;
    DigitRunOfDigits(digits, tail);
    assert (digits + tail)[..|digits|] == digits;
    ParseNatDecimal(dc);
  }

  /**
   * dcToModifier: a difficulty class (the digits after "DC" in the text, so
   * never negative) rendered as a span whose title keeps "DC n" and whose
   * text shows the modifier.
   */
  function DcToModifier(dc: nat): (html: string)
    ensures DcTitle(html) == Some(dc)
    ensures var shown := DcLabel(DcModifier(dc)) + "</span>";
      |html| > |shown| && html[|html| - |shown|..] == shown
  {
    var shown := DcLabel(DcModifier(dc)) + "</span>";
    var tail := "\">" + shown;
    DcTitleOf(dc, tail);
    var html := DcTitlePrefix + NatToDecimal(dc) + tail;
    assert html == (DcTitlePrefix + NatToDecimal(dc) + "\">") + shown;
    html
  }

  /** The worked values of the difficulty buckets. */
  lemma DcModifierExamples()
    ensures DcModifier(15) == 0 && DcLabel(DcModifier(15)) == Dice
    ensures DcModifier(25) == -4
    ensures DcModifier(30) == -8 && DcLabel(DcModifier(30)) == "-8"
  {
  }

  // ---------------------------------------------------------------------------
  // getRange

  /** `Math.floor(rangeInFt / 5)`: feet to grid inches. */
  function RangeBase(rangeInFt: real): int {
    (rangeInFt / 5.0).Floor
  }

  /**
   * getRange: short, medium and long range as "s/2s/4s" in inches, or no range
   * at all when the short range is one inch (a 5-foot reach).
   */
  function GetRange(rangeInFt: real): (r: string)
    ensures r == "" <==> RangeBase(rangeInFt) == 1
  {
    var base := RangeBase(rangeInFt);
    if base == 1 then "" else IntToDecimal(base) + "/" + IntToDecimal(base * 2) + "/" + IntToDecimal(base * 4)
  }

  /** The three bands read back as the base, twice the base and four times the base. */
  lemma GetRangeBands(rangeInFt: real)
    requires RangeBase(rangeInFt) != 1
    ensures var b := RangeBase(rangeInFt);
      var parts := Split(GetRange(rangeInFt), '/');
      && |parts| == 3
      && ParseInt(parts[0]) == Some(b)
      && ParseInt(parts[1]) == Some(2 * b)
      && ParseInt(parts[2]) == Some(4 * b)
  {
    var b := RangeBase(rangeInFt);
    var s, m, l := IntToDecimal(b), IntToDecimal(b * 2), IntToDecimal(b * 4);
    assert GetRange(rangeInFt) == s + ['/'] + (m + ['/'] + l);
    SplitFirstPiece(s, '/', m + ['/'] + l);
    SplitFirstPiece(m, '/', l);
    SplitNoSeparator(l, '/');
    ParseIntDecimal(b);
    ParseIntDecimal(b * 2);
    ParseIntDecimal(b * 4);
  }

  // ---------------------------------------------------------------------------
  // createNotes

  /** A weapon property flag: `properties[key]` is truthy. */
  predicate Prop(props: map<string, bool>, key: string) {
    key in props && props[key]
  }

  /** The notes createNotes collects, in its fixed order. */
  function NoteWords(props: map<string, bool>): (words: seq<string>)
    ensures |words| <= 5
    ensures forall k :: 0 <= k < |words| ==> words[k] != ""
    ensures "magic" in words <==> Prop(props, "mgc")
    ensures "adamantine" in words <==> Prop(props, "ada")
    ensures "alchemical silver" in words <==> Prop(props, "sil")
    ensures "reach" in words <==> Prop(props, "rch")
    ensures "two hands" in words <==> Prop(props, "two")
  {
    (if Prop(props, "mgc") then ["magic"] else [])
    + (if Prop(props, "ada") then ["adamantine"] else [])
    + (if Prop(props, "sil") then ["alchemical silver"] else [])
    + (if Prop(props, "rch") then ["reach"] else [])
    + (if Prop(props, "two") then ["two hands"] else [])
  }

  /** The notes createNotes can collect, in the order it collects them. */
  const NoteOrder: seq<string> := ["magic", "adamantine", "alchemical silver", "reach", "two hands"]

  /** No note appears twice in the order. */
  lemma NoteOrderDistinct()
    ensures forall a, b :: 0 <= a < b < |NoteOrder| ==> NoteOrder[a] != NoteOrder[b]
  {
    assert NoteOrder[0][0] == 'm' && NoteOrder[1][1] == 'd' && NoteOrder[2][1] == 'l';
    assert NoteOrder[3][0] == 'r' && NoteOrder[4][0] == 't';
  }

  /** `words` are entries of NoteOrder at the strictly increasing positions `at`, all below `bound`. */
  predicate TakenInOrder(words: seq<string>, at: seq<nat>, bound: nat) {
    && |at| == |words| && bound <= |NoteOrder|
    && (forall k :: 0 <= k < |at| ==> at[k] < bound && words[k] == NoteOrder[at[k]])
    && (forall i, j :: 0 <= i < j < |at| ==> at[i] < at[j])
  }

  lemma TakenInOrderAppend(words: seq<string>, at: seq<nat>, bound: nat, next: seq<string>, nextAt: seq<nat>)
    requires TakenInOrder(words, at, bound) && bound < |NoteOrder|
    requires (next == [] && nextAt == []) || (next == [NoteOrder[bound]] && nextAt == [bound])
    ensures TakenInOrder(words + next, at + nextAt, bound + 1)
  {
  }

  /** The five optional notes, each at its own position, taken one after the other. */
  lemma TakenInOrderFive(w0: seq<string>, w1: seq<string>, w2: seq<string>, w3: seq<string>, w4: seq<string>,
                         p0: seq<nat>, p1: seq<nat>, p2: seq<nat>, p3: seq<nat>, p4: seq<nat>)
    requires (w0 == [] && p0 == []) || (w0 == [NoteOrder[0]] && p0 == [0])
    requires (w1 == [] && p1 == []) || (w1 == [NoteOrder[1]] && p1 == [1])
    requires (w2 == [] && p2 == []) || (w2 == [NoteOrder[2]] && p2 == [2])
    requires (w3 == [] && p3 == []) || (w3 == [NoteOrder[3]] && p3 == [3])
    requires (w4 == [] && p4 == []) || (w4 == [NoteOrder[4]] && p4 == [4])
    ensures TakenInOrder(w0 + w1 + w2 + w3 + w4, p0 + p1 + p2 + p3 + p4, 5)
  {
    TakenInOrderThree(w0, w1, w2, p0, p1, p2);
    TakenInOrderAppend(w0 + w1 + w2, p0 + p1 + p2, 3, w3, p3);
    TakenInOrderAppend(w0 + w1 + w2 + w3, p0 + p1 + p2 + p3, 4, w4, p4);
  }

  lemma TakenInOrderThree(w0: seq<string>, w1: seq<string>, w2: seq<string>, p0: seq<nat>, p1: seq<nat>, p2: seq<nat>)
    requires (w0 == [] && p0 == []) || (w0 == [NoteOrder[0]] && p0 == [0])
    requires (w1 == [] && p1 == []) || (w1 == [NoteOrder[1]] && p1 == [1])
    requires (w2 == [] && p2 == []) || (w2 == [NoteOrder[2]] && p2 == [2])
    ensures TakenInOrder(w0 + w1 + w2, p0 + p1 + p2, 3)
  {
    TakenInOrderAppend([], [], 0, w0, p0);
    assert [] + w0 == w0 && [] + p0 == p0;
    TakenInOrderAppend(w0, p0, 1, w1, p1);
    TakenInOrderAppend(w0 + w1, p0 + p1, 2, w2, p2);
  }

  /** The positions in NoteOrder of the notes a weapon gets. */
  ghost function NotePositions(props: map<string, bool>): seq<nat> {
    (if Prop(props, "mgc") then [0] else [])
    + (if Prop(props, "ada") then [1] else [])
    + (if Prop(props, "sil") then [2] else [])
    + (if Prop(props, "rch") then [3] else [])
    + (if Prop(props, "two") then [4] else [])
  }

  /**
   * The notes are taken from magic, adamantine, alchemical silver, reach, two hands
   * at strictly increasing positions: in that order, and none twice.
   */
  lemma NoteWordsOrdered(props: map<string, bool>)
    ensures TakenInOrder(NoteWords(props), NotePositions(props), 5)
    ensures forall i, j :: 0 <= i < j < |NoteWords(props)| ==> NoteWords(props)[i] != NoteWords(props)[j]
  {
    var w0 := if Prop(props, "mgc") then ["magic"] else [];
    var w1 := if Prop(props, "ada") then ["adamantine"] else [];
    var w2 := if Prop(props, "sil") then ["alchemical silver"] else [];
    var w3 := if Prop(props, "rch") then ["reach"] else [];
    var w4 := if Prop(props, "two") then ["two hands"] else [];
    var p0: seq<nat> := if Prop(props, "mgc") then [0] else [];
    var p1: seq<nat> := if Prop(props, "ada") then [1] else [];
    var p2: seq<nat> := if Prop(props, "sil") then [2] else [];
    var p3: seq<nat> := if Prop(props, "rch") then [3] else [];
    var p4: seq<nat> := if Prop(props, "two") then [4] else [];
    assert NoteOrder[0] == "magic" && NoteOrder[1] == "adamantine" && NoteOrder[2] == "alchemical silver";
    assert NoteOrder[3] == "reach" && NoteOrder[4] == "two hands";
    TakenInOrderFive(w0, w1, w2, w3, w4, p0, p1, p2, p3, p4);
    NoteOrderDistinct();
  }

  /** createNotes: the weapon's notable properties joined with ", "; empty when it has none. */
  function CreateNotes(props: map<string, bool>): (notes: string)
    ensures notes == Join(NoteWords(props), ", ")
    ensures notes == "" <==>
      !(Prop(props, "mgc") || Prop(props, "ada") || Prop(props, "sil") || Prop(props, "rch") || Prop(props, "two"))
  {
    var words := NoteWords(props);
    assert words != [] ==> ("magic" in words || "adamantine" in words || "alchemical silver" in words
      || "reach" in words || "two hands" in words);
    assert words != [] ==> |Join(words, ", ")| >= |words[0]| > 0;
    Join(words, ", ")
  }

  /** Reach and two hands alone give just those two notes, in that order. */
  lemma CreateNotesExample()
    ensures CreateNotes(map["rch" := true, "two" := true, "mgc" := false]) == "reach" + ", " + "two hands"
  {
    var some := map["rch" := true, "two" := true, "mgc" := false];
    var pair := ["reach", "two hands"];
    assert NoteWords(some) == pair;
    assert pair[1..] == ["two hands"];
  }

  // ---------------------------------------------------------------------------
  // createAdditionalStatWithKey and capitalize

  /** One entry of the target actor's additional stats. */
  datatype AdditionalStat = AdditionalStat(caption: string, value: Json, dtype: string, hasMaxValue: bool, isCheckbox: bool)

  /** createAdditionalStatWithKey: one text stat under `key`, or nothing when the value is falsy. */
  function CreateAdditionalStat(key: string, caption: string, value: Option<Json>): (r: map<string, AdditionalStat>)
    ensures key in r <==> value.Some? && value.value.Truthy()
    ensures r.Keys <= {key}
    ensures key in r ==> r[key] == AdditionalStat(caption, value.value, "String", false, false)
  {
    if value.None? || !value.value.Truthy() then map[]
    else map[key := AdditionalStat(caption, value.value, "String", false, false)]
  }

  /** capitalize: a falsy value is returned as it is; otherwise its first letter is upper-cased. */
  function Capitalize(t: JsString): (r: JsString)
    ensures !t.Truthy() ==> r == t
    ensures t.Truthy() ==>
      r.Str? && |r.value| == |t.value| && r.value[0] == UpperChar(t.value[0]) && r.value[1..] == t.value[1..]
  {
    if !t.Truthy() then t else Str(CapitalizeText(t.value))
  }


}
