/**
 * Converting Telegram formatting entities into Discord markdown:
 * `apply_markdown` and `telegram_entities_to_markdown` of the bridge and of
 * the first version of the application.
 */
module Markdown {
  import opened Wrappers
  import opened PyStr
  import opened Messages

  /** The delimiter pair of `markdown_map` for an entity kind, if it has one. */
  function Delimiters(k: EntityKind): Option<(string, string)> {
    match k
    case Bold => Some(("**", "**"))
    case Italic => Some(("*", "*"))
    case Strike => Some(("~~", "~~"))
    case Code => Some(("`", "`"))
    case Pre => Some(("```", "```"))
    case _ => None
  }

  /** `s` with the `n` characters from index `i` taken out. */
  function Cut(s: string, i: nat, n: nat): string
    requires i + n <= |s|
  {
    s[..i] + s[i + n..]
  }

  /**
   * `apply_markdown(text, start, end, (d0, d1))`: wraps `text[start:end]` in
   * the delimiters and returns the text with the number of characters added.
   */
  function ApplyMarkdown(text: string, start: nat, end: nat, d: (string, string)): (r: (string, nat))
    requires start <= end
    ensures r.1 == |d.0| + |d.1|
    ensures |r.0| == |text| + r.1
  {
    PiecesRejoin(text, start, end);
    (Prefix(text, start) + d.0 + Slice(text, start, end) + d.1 + Suffix(text, end), |d.0| + |d.1|)
  }

  /**
   * The delimiters sit at the clamped bounds, and taking them out again gives
   * back the original text.
   */
  lemma {:induction false} ApplyMarkdownUnwraps(text: string, start: nat, end: nat, d: (string, string))
    requires start <= end
    ensures var r := ApplyMarkdown(text, start, end, d).0;
            var p := Clamp(text, start);
            var q := Clamp(text, end);
            && r[p..p + |d.0|] == d.0
            && r[q + |d.0|..q + |d.0| + |d.1|] == d.1
            && Cut(Cut(r, q + |d.0|, |d.1|), p, |d.0|) == text
  {
    var a, b, c := Prefix(text, start), Slice(text, start, end), Suffix(text, end);
    var p, q := Clamp(text, start), Clamp(text, end);
    assert |a| == p && |a| + |b| == q;
    PiecesRejoin(text, start, end);
    assert ApplyMarkdown(text, start, end, d).0 == a + d.0 + b + d.1 + c;
    Unwrap(a, b, c, d.0, d.1);
  }

  /** Delimiters put around the middle of three pieces sit at known places and can be taken out again. */
  lemma {:induction false} Unwrap(a: string, b: string, c: string, d0: string, d1: string)
    ensures var r := a + d0 + b + d1 + c;
            && r[|a|..|a| + |d0|] == d0
            && r[|a| + |b| + |d0|..|a| + |b| + |d0| + |d1|] == d1
            && Cut(Cut(r, |a| + |b| + |d0|, |d1|), |a|, |d0|) == a + b + c
  {
    var r := a + d0 + b + d1 + c;
    CutMiddle(a + d0 + b, d1, c);
    Associate(a + d0, b, c);
    CutMiddle(a, d0, b + c);
    Associate(a, b, c);
    var i, j := |a|, |a| + |d0|;
    SliceInLeft(a + d0 + b + d1, c, i, j);
    SliceInLeft(a + d0 + b, d1, i, j);
    SliceInLeft(a + d0, b, i, j);
    assert (a + d0)[i..j] == d0;
  }

  lemma {:induction false} SliceInLeft(x: string, y: string, i: nat, j: nat)
    requires i <= j <= |x|
    ensures (x + y)[i..j] == x[i..j]
  {
  }

  lemma {:induction false} Associate(x: string, y: string, z: string)
    ensures x + y + z == x + (y + z)
  {
  }

  /** Taking out the middle of three pieces leaves the outer two. */
  lemma {:induction false} CutMiddle(x: string, m: string, y: string)
    ensures (x + m + y)[|x|..|x| + |m|] == m
    ensures Cut(x + m + y, |x|, |m|) == x + y
  {
    assert (x + m + y)[..|x|] == x;
    assert (x + m + y)[|x| + |m|..] == y;
  }

  /** The order `telegram_entities_to_markdown` sorts by: start ascending, then end descending. */
  predicate KeyLe(a: Entity, b: Entity) {
    a.offset < b.offset || (a.offset == b.offset && a.offset + a.length >= b.offset + b.length)
  }

  predicate SortedByKey(es: seq<Entity>) {
    forall i, j :: 0 <= i < j < |es| ==> KeyLe(es[i], es[j])
  }

  /** Places `e` before the first element it is not after. */
  function Insert(e: Entity, es: seq<Entity>): (r: seq<Entity>)
    requires SortedByKey(es)
    ensures SortedByKey(r)
    ensures multiset(r) == multiset(es) + multiset{e}
    ensures forall x :: x in r ==> x == e || x in es
  {
    if es == [] then [e]
    else if KeyLe(e, es[0]) then [e] + es
    else
      var rest := Insert(e, es[1..]);
      assert es == [es[0]] + es[1..];
      SortedCons(es[0], rest);
      [es[0]] + rest
  }

  /** An element no later than any of a sorted sequence's elements can go in front of it. */
  lemma SortedCons(x: Entity, rest: seq<Entity>)
    requires SortedByKey(rest) && forall y :: y in rest ==> KeyLe(x, y)
    ensures SortedByKey([x] + rest)
  {
    var r := [x] + rest;
    forall i, j | 0 <= i < j < |r|
      ensures KeyLe(r[i], r[j])
    {
      assert r[j] == rest[j - 1] && r[j] in rest;
      if i > 0 {
        assert r[i] == rest[i - 1];
      }
    }
  }

  /** `sorted(entities, key=lambda e: (e.start, -e.end))`. */
  function SortEntities(es: seq<Entity>): (r: seq<Entity>)
    ensures SortedByKey(r)
    ensures multiset(r) == multiset(es)
  {
    if es == [] then []
    else
      assert es == [es[0]] + es[1..];
      Insert(es[0], SortEntities(es[1..]))
  }

  /** Two entities the sort key cannot tell apart: same start, same end. */
  predicate SameKey(a: Entity, b: Entity) {
    a.offset == b.offset && a.offset + a.length == b.offset + b.length
  }

  /** The entities of `es` whose key is `x`'s, in their order in `es`. */
  function WithKey(es: seq<Entity>, x: Entity): seq<Entity>
    decreases |es|
  {
    if es == [] then []
    else (if SameKey(es[0], x) then [es[0]] else []) + WithKey(es[1..], x)
  }

  /** `Insert` puts `e` in front of every entity whose key equals its own. */
  lemma {:induction false} InsertWithKey(e: Entity, es: seq<Entity>, x: Entity)
    requires SortedByKey(es)
    ensures WithKey(Insert(e, es), x) == (if SameKey(e, x) then [e] else []) + WithKey(es, x)
    decreases |es|
  {
    var own := if SameKey(e, x) then [e] else [];
    if es == [] {
      assert [e][1..] == [];
      assert WithKey([e], x) == own + WithKey([], x);
    } else if KeyLe(e, es[0]) {
      assert ([e] + es)[1..] == es;
      assert WithKey([e] + es, x) == own + WithKey(es, x);
    } else {
      var rest := Insert(e, es[1..]);
      var first := if SameKey(es[0], x) then [es[0]] else [];
      InsertWithKey(e, es[1..], x);
      assert ([es[0]] + rest)[1..] == rest;
      assert WithKey([es[0]] + rest, x) == first + WithKey(rest, x);
      assert WithKey(es, x) == first + WithKey(es[1..], x);
      assert first == [] || own == [];
      assert first + own == own + first;
    }
  }

  /**
   * Python's `sorted` is stable, and so is this sort: entities with equal
   * keys come out in the order they came in.
   */
  lemma {:induction false} SortEntitiesStable(es: seq<Entity>, x: Entity)
    ensures WithKey(SortEntities(es), x) == WithKey(es, x)
    decreases |es|
  {
    if es != [] {
      SortEntitiesStable(es[1..], x);
      InsertWithKey(es[0], SortEntities(es[1..]), x);
    }
  }

  /**
   * One iteration of the bridge's conversion loop. `md` is the text so far,
   * `corr` the accumulated offset correction, `urlPad` what a text-URL entity
   * adds to the correction besides its url's length.
   */
  function Step(original: string, e: Entity, md: string, corr: nat, urlPad: nat): (r: (string, nat)) {
    // UTF-16 offsets become character indices, clamped to the text, then shifted
    var start := Clamp(original, e.offset) + corr;
    var end := Clamp(original, e.offset + e.length) + corr;
    match Delimiters(e.kind)
    case Some(d) =>
      var (t, c) := ApplyMarkdown(md, start, end, d);
      (t, corr + c)
    case None =>
      if e.kind.TextUrl? && e.kind.url != [] then
        (Prefix(md, start) + " [" + Slice(md, start, end) + "](" + e.kind.url + ") " + Suffix(md, end),
         corr + |e.kind.url| + urlPad)
      else (md, corr)
  }

  /** The conversion loop over `es`, in the given order. */
  function Convert(original: string, es: seq<Entity>, md: string, corr: nat, urlPad: nat): (r: (string, nat))
    decreases |es|
  {
    if es == [] then (md, corr)
    else
      var (t, c) := Step(original, es[0], md, corr, urlPad);
      Convert(original, es[1..], t, c, urlPad)
  }

  /** The pad the bridge's code adds for a text URL: 4, two short of what it inserts. */
  const AsWrittenUrlPad: nat := 4

  /** The pad matching what is inserted: `" ["`, `"]("` and `") "` are six characters. */
  const InsertedUrlPad: nat := 6

  /** `telegram_entities_to_markdown` of the bridge as its code is written. */
  function ToMarkdownAsWritten(text: string, es: seq<Entity>): string {
    if es == [] then text else Convert(text, SortEntities(es), text, 0, AsWrittenUrlPad).0
  }

  /** `telegram_entities_to_markdown` of the bridge with the text-URL correction repaired. */
  function ToMarkdown(text: string, es: seq<Entity>): (r: string)
    ensures es == [] ==> r == text
  {
    if es == [] then text else Convert(text, SortEntities(es), text, 0, InsertedUrlPad).0
  }

  /**
   * With the repaired pad the offset correction counts exactly the characters
   * inserted so far, which is what shifting later entities by it relies on.
   */
  lemma {:induction false} ConvertCorrectionExact(original: string, es: seq<Entity>, md: string, corr: nat)
    requires |md| == |original| + corr
    ensures var r := Convert(original, es, md, corr, InsertedUrlPad);
            |r.0| == |original| + r.1 && r.1 >= corr
    decreases |es|
  {
    if es != [] {
      var e := es[0];
      var start := Clamp(original, e.offset) + corr;
      var end := Clamp(original, e.offset + e.length) + corr;
      if Delimiters(e.kind).None? && e.kind.TextUrl? && e.kind.url != [] {
        PiecesRejoin(md, start, end);
      }
      var (t, c) := Step(original, e, md, corr, InsertedUrlPad);
      ConvertCorrectionExact(original, es[1..], t, c);
    }
  }

  /** The length of the converted text is the original length plus the final correction. */
  lemma ToMarkdownLength(text: string, es: seq<Entity>)
    requires es != []
    ensures |ToMarkdown(text, es)| == |text| + Convert(text, SortEntities(es), text, 0, InsertedUrlPad).1
  {
    ConvertCorrectionExact(text, SortEntities(es), text, 0);
  }

  /** The text-URL step of the example below: the link is written out with its spaces. */
  lemma ExampleLinkStep(pad: nat)
    ensures Step("ab", Entity(TextUrl("u"), 0, 1), "ab", 0, pad) == (" [a](u) b", 1 + pad)
  {
    assert Clamp("ab", 0) == 0 && Clamp("ab", 1) == 1;
    assert Prefix("ab", 0) == "" && Slice("ab", 0, 1) == "a" && Suffix("ab", 1) == "b";
    assert "" + " [" + "a" + "](" + "u" + ") " + "b" == " [a](u) b";
  }

  /** The bold step of the example below, shifted by `corr`. */
  lemma ExampleBoldStep(corr: nat)
    requires corr == 5 || corr == 7
    ensures corr == 5 ==> Step("ab", Entity(Bold, 1, 1), " [a](u) b", corr, 0).0 == " [a](u**)** b"
    ensures corr == 7 ==> Step("ab", Entity(Bold, 1, 1), " [a](u) b", corr, 0).0 == " [a](u) **b**"
  {
    var linked := " [a](u) b";
    assert Clamp("ab", 1) == 1 && Clamp("ab", 2) == 2;
    if corr == 5 {
      assert Prefix(linked, 6) == " [a](u" && Slice(linked, 6, 7) == ")" && Suffix(linked, 7) == " b";
      assert " [a](u" + "**" + ")" + "**" + " b" == " [a](u**)** b";
    } else {
      assert Prefix(linked, 8) == " [a](u) " && Slice(linked, 8, 9) == "b" && Suffix(linked, 9) == "";
      assert " [a](u) " + "**" + "b" + "**" + "" == " [a](u) **b**";
    }
  }

  /**
   * As written, a text URL followed by a bold entity puts the bold delimiters
   * two characters too early: around `)` instead of around `b`.
   */
  lemma AsWrittenMisplacesAfterTextUrl()
    ensures ToMarkdownAsWritten("ab", [Entity(TextUrl("u"), 0, 1), Entity(Bold, 1, 1)]) == " [a](u**)** b"
    ensures ToMarkdown("ab", [Entity(TextUrl("u"), 0, 1), Entity(Bold, 1, 1)]) == " [a](u) **b**"
  {
    var es := [Entity(TextUrl("u"), 0, 1), Entity(Bold, 1, 1)];
    assert SortEntities(es) == es by {
      assert SortEntities(es[1..]) == [es[1]];
    }
    ExampleLinkStep(AsWrittenUrlPad);
    ExampleLinkStep(InsertedUrlPad);
    ExampleBoldStep(5);
    ExampleBoldStep(7);
    assert es[1..][1..] == [];
  }

  /** One iteration of the first version's loop: no sorting, no clamping, no spaces around links. */
  function StepV1(e: Entity, md: string, corr: nat): (r: (string, nat)) {
    var start := e.offset + corr;
    var end := start + e.length;
    match Delimiters(e.kind)
    case Some(d) =>
      var (t, c) := ApplyMarkdown(md, start, end, d);
      (t, corr + c)
    case None =>
      if e.kind.TextUrl? then
        (Prefix(md, start) + "[" + Slice(md, start, end) + "](" + e.kind.url + ")" + Suffix(md, end),
         corr + |e.kind.url| + 4)
      else (md, corr)
  }

  function ConvertV1(es: seq<Entity>, md: string, corr: nat): (r: (string, nat))
    decreases |es|
  {
    if es == [] then (md, corr)
    else
      var (t, c) := StepV1(es[0], md, corr);
      ConvertV1(es[1..], t, c)
  }

  /** `telegram_entities_to_markdown` of the first version: entities in the given order. */
  function ToMarkdownV1(text: string, es: seq<Entity>): (r: string)
    ensures es == [] ==> r == text
  {
    if es == [] then text else ConvertV1(es, text, 0).0
  }

  /** In the first version the correction for a text URL matches the four characters it inserts. */
  lemma {:induction false} ConvertV1CorrectionExact(text: string, es: seq<Entity>, md: string, corr: nat)
    requires |md| == |text| + corr
    ensures var r := ConvertV1(es, md, corr);
            |r.0| == |text| + r.1 && r.1 >= corr
    decreases |es|
  {
    if es != [] {
      var e := es[0];
      var start := e.offset + corr;
      if Delimiters(e.kind).None? && e.kind.TextUrl? {
        PiecesRejoin(md, start, start + e.length);
      }
      var (t, c) := StepV1(e, md, corr);
      ConvertV1CorrectionExact(text, es[1..], t, c);
    }
  }
}
