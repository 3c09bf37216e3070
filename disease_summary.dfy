/** The disease-frequency fold and the summary phrase of a survey
    (main.py:262-278), and the synthetic single suggestion that carries the
    phrase to the report renderer (main.py:287). */
module DiseaseSummary {
  import opened Results

  /** One candidate condition of a classifier reply; `name` is None when the
      reply's suggestion has no "name" key. */
  datatype Suggestion = Suggestion(name: Option<string>, probability: real)

  const UNKNOWN_DISEASE: string := "Unknown"
  const HEALTHY_PHRASE: string := "All plants appear healthy."

  /** The Diagnosis Record of one image: its top-ranked suggestion's name, "Unknown"
      when that suggestion has no name, and nothing at all for an empty list. */
  function TopName(suggestions: seq<Suggestion>): Option<string> {
    if suggestions == [] then None else Some(suggestions[0].name.GetOr(UNKNOWN_DISEASE))
  }

  /** Only the first suggestion decides: an empty list yields no name, a named top
      suggestion yields its name and an unnamed one yields "Unknown". */
  lemma TopNameCases(suggestions: seq<Suggestion>)
    ensures TopName(suggestions).None? <==> suggestions == []
    ensures suggestions != [] && suggestions[0].name.Some? ==> TopName(suggestions) == suggestions[0].name
    ensures suggestions != [] && suggestions[0].name.None? ==> TopName(suggestions) == Some(UNKNOWN_DISEASE)
  {
  }

  /** An unnamed top suggestion and one literally named "Unknown" are counted under
      the same key, whatever follows them. */
  lemma UnnamedIsUnknown(p: real, q: real, rest: seq<Suggestion>, rest': seq<Suggestion>)
    ensures TopName([Suggestion(None, p)] + rest) == TopName([Suggestion(Some(UNKNOWN_DISEASE), q)] + rest')
    ensures TopName([Suggestion(None, p)] + rest) == Some("Unknown")
  {
  }

  // ---------------------------------------------------------------------------
  // The count dictionary: an association list, kept in insertion order as a
  // Python dict is.
  // ---------------------------------------------------------------------------

  datatype Entry = Entry(name: string, count: nat)

  type Counts = seq<Entry>

  /** The dictionary's keys, in insertion order. */
  function Keys(counts: Counts): seq<string> {
    if counts == [] then [] else [counts[0].name] + Keys(counts[1..])
  }

  /** `counts.get(name, 0)`. */
  function Get(counts: Counts, name: string): nat {
    if counts == [] then 0
    else if counts[0].name == name then counts[0].count
    else Get(counts[1..], name)
  }

  /** The sum of all counts. */
  function Total(counts: Counts): nat {
    if counts == [] then 0 else counts[0].count + Total(counts[1..])
  }

  /** `counts[name] = counts.get(name, 0) + 1`: an existing key keeps its place,
      a new key goes to the end. */
  function Bump(counts: Counts, name: string): (r: Counts)
    ensures Get(r, name) == Get(counts, name) + 1
    ensures forall other :: other != name ==> Get(r, other) == Get(counts, other)
    ensures Keys(r) == if name in Keys(counts) then Keys(counts) else Keys(counts) + [name]
    ensures Total(r) == Total(counts) + 1
  {
    if counts == [] then [Entry(name, 1)]
    else if counts[0].name == name then [Entry(name, counts[0].count + 1)] + counts[1..]
    else [counts[0]] + Bump(counts[1..], name)
  }

  /** The dictionary the loop of main.py:265-272 builds from the names it meets, in order. */
  function Tally(names: seq<string>): Counts {
    if names == [] then [] else Bump(Tally(names[..|names| - 1]), names[|names| - 1])
  }

  // ---------------------------------------------------------------------------
  // An independent description of that dictionary.
  // ---------------------------------------------------------------------------

  predicate NoDuplicates(s: seq<string>) {
    forall i, j :: 0 <= i < j < |s| ==> s[i] != s[j]
  }

  /** The index of the first occurrence of `x` in `s`, or |s| when there is none. */
  function FirstIndex(s: seq<string>, x: string): (k: nat)
    ensures k <= |s|
    ensures k < |s| <==> x in s
    ensures k < |s| ==> s[k] == x && x !in s[..k]
  {
    if s == [] then 0 else if s[0] == x then 0 else 1 + FirstIndex(s[1..], x)
  }

  /** `keys` lists names in the order of their first occurrence in `names`. */
  predicate InFirstOccurrenceOrder(keys: seq<string>, names: seq<string>) {
    forall i, j :: 0 <= i < j < |keys| ==> FirstIndex(names, keys[i]) < FirstIndex(names, keys[j])
  }

  /** `counts` has one entry per distinct name of `names` (exact string match),
      that entry's count is how often the name occurs, and the entries are in
      first-occurrence order. */
  ghost predicate IsTallyOf(counts: Counts, names: seq<string>) {
    && NoDuplicates(Keys(counts))
    && (forall n :: n in Keys(counts) <==> n in names)
    && (forall n :: Get(counts, n) == multiset(names)[n])
    && InFirstOccurrenceOrder(Keys(counts), names)
  }

  lemma {:induction false} KeysShape(counts: Counts)
    ensures |Keys(counts)| == |counts|
    ensures forall i :: 0 <= i < |counts| ==> Keys(counts)[i] == counts[i].name
  {
    if counts != [] {
      KeysShape(counts[1..]);
    }
  }

  lemma {:induction false} FirstIndexAppend(s: seq<string>, y: string, x: string)
    ensures x in s ==> FirstIndex(s + [y], x) == FirstIndex(s, x)
    ensures x !in s && x == y ==> FirstIndex(s + [y], x) == |s|
  {
    if s != [] {
      assert (s + [y])[1..] == s[1..] + [y];
      FirstIndexAppend(s[1..], y, x);
    }
  }

  /** Bumping a name keeps the keys in first-occurrence order. */
  lemma BumpKeepsOrder(prefix: seq<string>, x: string)
    requires InFirstOccurrenceOrder(Keys(Tally(prefix)), prefix)
    requires forall n :: n in Keys(Tally(prefix)) <==> n in prefix
    ensures InFirstOccurrenceOrder(Keys(Bump(Tally(prefix), x)), prefix + [x])
  {
    var names := prefix + [x];
    var kb, ka := Keys(Tally(prefix)), Keys(Bump(Tally(prefix), x));
    forall i, j | 0 <= i < j < |ka|
      ensures FirstIndex(names, ka[i]) < FirstIndex(names, ka[j])
    {
      FirstIndexAppend(prefix, x, ka[i]);
      FirstIndexAppend(prefix, x, ka[j]);
      if j == |kb| {
        assert ka[i] == kb[i] && ka[j] == x && x !in kb;
      } else {
        assert ka[i] == kb[i] && ka[j] == kb[j];
      }
    }
  }

  /** The fold builds exactly the dictionary described by IsTallyOf. */
  lemma {:induction false} TallyIsTallyOf(names: seq<string>)
    ensures IsTallyOf(Tally(names), names)
  {
    if names != [] {
      var prefix, x := names[..|names| - 1], names[|names| - 1];
      assert names == prefix + [x];
      TallyIsTallyOf(prefix);
      assert Tally(names) == Bump(Tally(prefix), x);
      assert multiset(names) == multiset(prefix) + multiset{x};
      BumpKeepsOrder(prefix, x);
    }
  }


  /** Every key has exactly its dictionary entry's count when keys are distinct. */
  lemma {:induction false} GetAt(counts: Counts, i: nat)
    requires NoDuplicates(Keys(counts)) && i < |counts|
    ensures Get(counts, counts[i].name) == counts[i].count
  {
    KeysShape(counts);
    if i > 0 {
      KeysShape(counts[1..]);
      assert Keys(counts)[0] != Keys(counts)[i];
      assert NoDuplicates(Keys(counts[1..])) by {
        forall a, b | 0 <= a < b < |Keys(counts[1..])|
          ensures Keys(counts[1..])[a] != Keys(counts[1..])[b]
        {
          assert Keys(counts)[a + 1] != Keys(counts)[b + 1];
        }
      }
      GetAt(counts[1..], i - 1);
    }
  }

  /** Dropping the head of a duplicate-free, ordered key list keeps both
      properties and removes exactly the head from its members. */
  lemma KeysTail(k: seq<string>, names: seq<string>)
    requires k != [] && NoDuplicates(k) && InFirstOccurrenceOrder(k, names)
    ensures NoDuplicates(k[1..]) && InFirstOccurrenceOrder(k[1..], names)
    ensures forall n :: n in k[1..] <==> n in k && n != k[0]
  {
    var t := k[1..];
    forall a, b | 0 <= a < b < |t|
      ensures t[a] != t[b] && FirstIndex(names, t[a]) < FirstIndex(names, t[b])
    {
      assert t[a] == k[a + 1] && t[b] == k[b + 1];
    }
    forall n | n in k && n != k[0]
      ensures n in t
    {
      var a :| 0 <= a < |k| && k[a] == n;
      assert t[a - 1] == n;
    }
    forall n | n in t
      ensures n != k[0]
    {
      var a :| 0 <= a < |t| && t[a] == n;
      assert k[a + 1] == n;
    }
  }

  /** In a list in first-occurrence order the head comes first. */
  lemma HeadFirst(k: seq<string>, names: seq<string>, a: nat)
    requires a < |k| && InFirstOccurrenceOrder(k, names)
    ensures FirstIndex(names, k[0]) <= FirstIndex(names, k[a])
    ensures a > 0 ==> FirstIndex(names, k[0]) < FirstIndex(names, k[a])
  {
  }

  /** Two such lists with the same members start with the same key. */
  lemma SameHead(k1: seq<string>, k2: seq<string>, names: seq<string>)
    requires k1 != [] && k2 != []
    requires forall n :: n in k1 <==> n in k2
    requires InFirstOccurrenceOrder(k1, names) && InFirstOccurrenceOrder(k2, names)
    ensures k1[0] == k2[0]
  {
    assert k1[0] in k2 && k2[0] in k1;
    var j :| 0 <= j < |k1| && k1[j] == k2[0];
    var j' :| 0 <= j' < |k2| && k2[j'] == k1[0];
    HeadFirst(k1, names, j);
    HeadFirst(k2, names, j');
    assert j == 0;
  }

  /** Two duplicate-free key lists with the same members, both in first-occurrence
      order with respect to the same names, are the same list. */
  lemma {:induction false} OrderedKeysUnique(k1: seq<string>, k2: seq<string>, names: seq<string>)
    requires NoDuplicates(k1) && NoDuplicates(k2)
    requires forall n :: n in k1 <==> n in k2
    requires InFirstOccurrenceOrder(k1, names) && InFirstOccurrenceOrder(k2, names)
    ensures k1 == k2
  {
    if k1 == [] || k2 == [] {
      var x1 := if k1 == [] then "" else k1[0];
      var x2 := if k2 == [] then "" else k2[0];
      assert k1 != [] ==> x1 in k1 && x1 in k2;
      assert k2 != [] ==> x2 in k2 && x2 in k1;
    } else {
      SameHead(k1, k2, names);
      KeysTail(k1, names);
      KeysTail(k2, names);
      OrderedKeysUnique(k1[1..], k2[1..], names);
      assert k1 == [k1[0]] + k1[1..] && k2 == [k2[0]] + k2[1..];
    }
  }

  /** IsTallyOf pins the dictionary down completely: whatever satisfies it is Tally(names). */
  lemma TallyUnique(counts: Counts, names: seq<string>)
    requires IsTallyOf(counts, names)
    ensures counts == Tally(names)
  {
    var t := Tally(names);
    TallyIsTallyOf(names);
    OrderedKeysUnique(Keys(counts), Keys(t), names);
    KeysShape(counts);
    KeysShape(t);
    forall i | 0 <= i < |counts|
      ensures counts[i] == t[i]
    {
      GetAt(counts, i);
      GetAt(t, i);
    }
  }

  /** The counts add up to the number of names folded. */
  lemma {:induction false} TallyTotal(names: seq<string>)
    ensures Total(Tally(names)) == |names|
  {
    if names != [] {
      TallyTotal(names[..|names| - 1]);
    }
  }

  // ---------------------------------------------------------------------------
  // The summary phrase.
  // ---------------------------------------------------------------------------

  function DigitChar(d: nat): (c: char)
    requires d < 10
  {
    ('0' as int + d) as char
  }

  predicate IsDigit(c: char) {
    '0' <= c <= '9'
  }

  /** Python's `str(n)` for a non-negative integer: decimal digits, no leading zero. */
  function DecimalString(n: nat): (s: string)
    ensures s != []
    ensures forall i :: 0 <= i < |s| ==> IsDigit(s[i])
    ensures n > 0 ==> s[0] != '0'
    ensures n == 0 ==> s == "0"
  {
    if n < 10 then [DigitChar(n)] else DecimalString(n / 10) + [DigitChar(n % 10)]
  }

  /** The value a string of decimal digits denotes. */
  function DecimalValue(s: string): nat
    requires forall i :: 0 <= i < |s| ==> IsDigit(s[i])
  {
    if s == [] then 0
    else
      var last := s[|s| - 1];
      assert IsDigit(last);
      10 * DecimalValue(s[..|s| - 1]) + (last as int - '0' as int)
  }

  /** Reading the count back out of its decimal text gives the count. */
  lemma {:induction false} DecimalRoundTrip(n: nat)
    ensures DecimalValue(DecimalString(n)) == n
  {
    var s := DecimalString(n);
    if n >= 10 {
      DecimalRoundTrip(n / 10);
      assert s[..|s| - 1] == DecimalString(n / 10);
    }
  }

  /** `", ".join(parts)` with any separator. */
  function Join(parts: seq<string>, sep: string): string {
    if parts == [] then ""
    else if |parts| == 1 then parts[0]
    else parts[0] + sep + Join(parts[1..], sep)
  }

  /** `f"{count} plant(s) with {name}"`. */
  function EntryText(e: Entry): string {
    DecimalString(e.count) + " plant(s) with " + e.name
  }

  function EntryTexts(counts: Counts): seq<string> {
    seq(|counts|, i requires 0 <= i < |counts| => EntryText(counts[i]))
  }

  /** The summary of a count dictionary (main.py:275-278). */
  function Phrase(counts: Counts): string {
    if counts == [] then HEALTHY_PHRASE else Join(EntryTexts(counts), ", ")
  }

  /** The healthy phrase is produced exactly for the empty dictionary: every other
      phrase starts with a digit. */
  lemma PhraseHealthyIff(counts: Counts)
    ensures Phrase(counts) == HEALTHY_PHRASE <==> counts == []
  {
    if counts != [] {
      var parts := EntryTexts(counts);
      assert parts[0] == EntryText(counts[0]);
      var phrase := Join(parts, ", ");
      assert phrase[0] == parts[0][0];
      assert IsDigit(phrase[0]);
      assert !IsDigit(HEALTHY_PHRASE[0]);
    }
  }

  /** A multi-entry phrase is the first entry's text, the separator, and the phrase of the rest. */
  lemma PhraseCons(counts: Counts)
    requires |counts| >= 2
    ensures Phrase(counts) == EntryText(counts[0]) + ", " + Phrase(counts[1..])
  {
    assert EntryTexts(counts)[1..] == EntryTexts(counts[1..]);
  }

  /** A one-entry phrase is that entry's text. */
  lemma PhraseSingle(e: Entry)
    ensures Phrase([e]) == EntryText(e)
  {
    assert EntryTexts([e]) == [EntryText(e)];
  }

  lemma PhrasePair(first: Entry, second: Entry)
    ensures Phrase([first, second]) == EntryText(first) + ", " + EntryText(second)
  {
    PhraseCons([first, second]);
    assert [first, second][1..] == [second];
    PhraseSingle(second);
  }

  // ---------------------------------------------------------------------------
  // From the images' top names to the summary.
  // ---------------------------------------------------------------------------

  /** The names of the images that yielded a suggestion, in listing order. */
  function Present(tops: seq<Option<string>>): seq<string> {
    if tops == [] then []
    else
      var prefix, last := tops[..|tops| - 1], tops[|tops| - 1];
      if last.Some? then Present(prefix) + [last.value] else Present(prefix)
  }

  /** Dropping the images without a suggestion keeps every name as often as it was
      a top name, and nothing else. */
  lemma {:induction false} PresentFilters(tops: seq<Option<string>>)
    ensures forall n :: multiset(Present(tops))[n] == multiset(tops)[Some(n)]
    ensures |Present(tops)| == |tops| - multiset(tops)[None]
  {
    if tops != [] {
      var prefix, last := tops[..|tops| - 1], tops[|tops| - 1];
      assert tops == prefix + [last];
      PresentFilters(prefix);
    }
  }

  /** No name is left exactly when no image yielded a suggestion. */
  lemma {:induction false} PresentEmpty(tops: seq<Option<string>>)
    ensures Present(tops) == [] <==> forall k :: 0 <= k < |tops| ==> tops[k].None?
  {
    if tops != [] {
      var prefix := tops[..|tops| - 1];
      PresentEmpty(prefix);
      assert forall k :: 0 <= k < |prefix| ==> prefix[k] == tops[k];
    }
  }

  /** One more image extends the dictionary by its top name, if it has one: the step
      of the counting loop at main.py:266-271. */
  lemma TallyPresentStep(tops: seq<Option<string>>, top: Option<string>)
    ensures top.Some? ==> Tally(Present(tops + [top])) == Bump(Tally(Present(tops)), top.value)
    ensures top.None? ==> Tally(Present(tops + [top])) == Tally(Present(tops))
  {
    assert (tops + [top])[..|tops|] == tops;
    if top.Some? {
      var names := Present(tops);
      assert (names + [top.value])[..|names|] == names;
    }
  }

  /** The summary phrase of a survey whose images had these top names. */
  function SurveySummary(tops: seq<Option<string>>): string {
    Phrase(Tally(Present(tops)))
  }

  /** The properties of the fold the survey relies on: each name's count is the
      number of images whose top suggestion has that name, the counts add up to the
      number of images with a non-empty suggestion list, and the summary is the
      healthy phrase exactly when no image yielded a suggestion. */
  lemma {:induction false} SurveyCounts(tops: seq<Option<string>>)
    ensures IsTallyOf(Tally(Present(tops)), Present(tops))
    ensures forall n :: Get(Tally(Present(tops)), n) == multiset(tops)[Some(n)]
    ensures Total(Tally(Present(tops))) == |tops| - multiset(tops)[None]
    ensures SurveySummary(tops) == HEALTHY_PHRASE <==> forall k :: 0 <= k < |tops| ==> tops[k].None?
  {
    var names := Present(tops);
    PresentFilters(tops);
    PresentEmpty(tops);
    TallyIsTallyOf(names);
    TallyTotal(names);
    PhraseHealthyIff(Tally(names));
    if names != [] {
      assert names[0] in names;
      assert names[0] in Keys(Tally(names));
    }
  }

  lemma TallyExample()
    ensures Tally(["Leaf Blight", "Leaf Blight", "Rust"]) == [Entry("Leaf Blight", 2), Entry("Rust", 1)]
  {
    var names := ["Leaf Blight", "Leaf Blight", "Rust"];
    assert names[..2] == ["Leaf Blight", "Leaf Blight"];
    assert names[..2][..1] == ["Leaf Blight"];
    assert Tally(names[..2][..1]) == [Entry("Leaf Blight", 1)];
    assert Tally(names[..2]) == Bump([Entry("Leaf Blight", 1)], "Leaf Blight");
    assert Tally(names[..2]) == [Entry("Leaf Blight", 2)];
    assert Tally(names) == Bump([Entry("Leaf Blight", 2)], "Rust");
    assert Bump([], "Rust") == [Entry("Rust", 1)];
    assert Bump([Entry("Leaf Blight", 2)], "Rust") == [Entry("Leaf Blight", 2)] + Bump([], "Rust");
  }

  /** `f"{count} plant(s) with {name}"` on the two entries of the example. */
  lemma LeafBlightText()
    ensures EntryText(Entry("Leaf Blight", 2)) == "2 plant(s) with Leaf Blight"
  {
    SmallDecimals();
  }

  lemma RustText()
    ensures EntryText(Entry("Rust", 1)) == "1 plant(s) with Rust"
  {
    SmallDecimals();
  }

  lemma SmallDecimals()
    ensures DecimalString(1) == "1" && DecimalString(2) == "2"
  {
  }

  lemma UnknownText()
    ensures EntryText(Entry(UNKNOWN_DISEASE, 1)) == "1 plant(s) with Unknown"
  {
    SmallDecimals();
  }

  /** One image whose top suggestion has no name: "1 plant(s) with Unknown". */
  lemma UnknownSummary(p: real)
    ensures SurveySummary([TopName([Suggestion(None, p)])]) == "1 plant(s) with Unknown"
  {
    var tops := [TopName([Suggestion(None, p)])];
    assert tops == [Some(UNKNOWN_DISEASE)];
    assert Present(tops) == [UNKNOWN_DISEASE] by {
      assert tops[..0] == [];
    }
    assert Tally([UNKNOWN_DISEASE]) == [Entry(UNKNOWN_DISEASE, 1)] by {
      assert [UNKNOWN_DISEASE][..0] == [];
    }
    PhraseSingle(Entry(UNKNOWN_DISEASE, 1));
    UnknownText();
  }

  lemma PhraseExample()
    ensures Phrase([Entry("Leaf Blight", 2), Entry("Rust", 1)])
         == "2 plant(s) with Leaf Blight, 1 plant(s) with Rust"
  {
    var first, second := Entry("Leaf Blight", 2), Entry("Rust", 1);
    PhrasePair(first, second);
    LeafBlightText();
    RustText();
    LiteralJoin();
  }

  lemma LiteralJoin()
    ensures "2 plant(s) with Leaf Blight" + ", " + "1 plant(s) with Rust"
         == "2 plant(s) with Leaf Blight, 1 plant(s) with Rust"
  {
  }

  /** Top names Leaf Blight, Leaf Blight, Rust give the phrase of main.py:272-278. */
  lemma SurveySummaryExample()
    ensures SurveySummary([Some("Leaf Blight"), Some("Leaf Blight"), Some("Rust")])
         == "2 plant(s) with Leaf Blight, 1 plant(s) with Rust"
  {
    PresentExample();
    TallyExample();
    PhraseExample();
  }

  lemma PresentExample()
    ensures Present([Some("Leaf Blight"), Some("Leaf Blight"), Some("Rust")]) == ["Leaf Blight", "Leaf Blight", "Rust"]
  {
    var tops := [Some("Leaf Blight"), Some("Leaf Blight"), Some("Rust")];
    assert tops[..2] == [Some("Leaf Blight"), Some("Leaf Blight")];
    assert tops[..2][..1] == [Some("Leaf Blight")];
    assert tops[..2][..1][..0] == [];
    assert Present(tops[..2][..1]) == ["Leaf Blight"];
    assert Present(tops[..2]) == ["Leaf Blight", "Leaf Blight"];
  }

  /** The synthetic classifier result of main.py:287: a single suggestion whose
      name is the summary and whose probability is 1.0. */
  function Consolidated(summary: string): (suggestions: seq<Suggestion>)
    ensures |suggestions| == 1 && suggestions[0].probability == 1.0
    ensures TopName(suggestions) == Some(summary)
  {
    [Suggestion(Some(summary), 1.0)]
  }
}
