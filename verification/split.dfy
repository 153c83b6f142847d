/**
 * `split_message`: breaking a message into parts no longer than Discord's
 * limit, cutting preferably after the last newline that fits.
 */
module Split {
  import opened PyStr

  /** The default `max_length` of `split_message`: Discord's message size limit. */
  const DefaultMaxLength: nat := 2000

  /**
   * Where an over-long message is cut: the last newline among its first
   * `maxLength` characters, or `maxLength` itself when there is none.
   */
  function CutIndex(m: string, maxLength: nat): (k: nat)
    requires 0 < maxLength < |m|
    ensures k <= maxLength
    ensures k < maxLength ==> m[k] == '\n'
  {
    var i := RFind(m[..maxLength], '\n');
    if i == -1 then maxLength else i
  }

  /** The cut is at the last newline that fits, and at `maxLength` exactly when none fits. */
  lemma CutIndexIsLastNewline(m: string, maxLength: nat)
    requires 0 < maxLength < |m|
    ensures var k := CutIndex(m, maxLength);
            && (k == maxLength <==> '\n' !in m[..maxLength])
            && (k < maxLength ==> '\n' !in m[k + 1..maxLength])
  {
    var i := RFind(m[..maxLength], '\n');
    if i != -1 {
      assert m[..maxLength][i + 1..] == m[i + 1..maxLength];
    }
  }

  /** What remains after a cut at `k`: the rest of the message, left-stripped. */
  function Remainder(m: string, maxLength: nat): (rest: string)
    requires 0 < maxLength < |m|
    ensures |rest| < |m|
  {
    var k := CutIndex(m, maxLength);
    var rest := LStrip(m[k..]);
    if k == 0 then
      assert IsSpace(m[k..][0]);
      rest
    else rest
  }

  /** The `while` loop of `split_message` and the final non-empty remainder. */
  function SplitLoop(m: string, maxLength: nat): (parts: seq<string>)
    requires maxLength > 0
    ensures forall i :: 0 <= i < |parts| ==> |parts[i]| <= maxLength
    decreases |m|
  {
    if |m| > maxLength then
      var head := m[..CutIndex(m, maxLength)];
      var tail := SplitLoop(Remainder(m, maxLength), maxLength);
      ConsFits(head, tail, maxLength);
      [head] + tail
    else if m == [] then []
    else [m]
  }

  /** A part that fits, followed by parts that fit, gives parts that all fit. */
  lemma ConsFits(head: string, tail: seq<string>, maxLength: nat)
    requires |head| <= maxLength
    requires forall i :: 0 <= i < |tail| ==> |tail[i]| <= maxLength
    ensures forall i :: 0 <= i < |[head] + tail| ==> |([head] + tail)[i]| <= maxLength
  {
  }

  /**
   * `split_message(message, max_length)`. A positive `max_length` is
   * required: with a negative one, or with 0 and a message holding a
   * non-whitespace character, the Python loop never ends.
   */
  function SplitMessage(m: string, maxLength: nat): (parts: seq<string>)
    requires maxLength > 0
    ensures |parts| >= 1
    ensures |m| <= maxLength ==> parts == [m]
    ensures forall i :: 0 <= i < |parts| ==> |parts[i]| <= maxLength
  {
    if |m| <= maxLength then [m] else SplitLoop(m, maxLength)
  }

  /** One iteration of the loop moves the first part from the pending parts to the finished ones. */
  lemma {:induction false} SplitLoopStep(done: seq<string>, rest: string, maxLength: nat)
    requires 0 < maxLength < |rest|
    ensures done + SplitLoop(rest, maxLength)
            == (done + [rest[..CutIndex(rest, maxLength)]]) + SplitLoop(Remainder(rest, maxLength), maxLength)
  {
    var head := rest[..CutIndex(rest, maxLength)];
    var tail := SplitLoop(Remainder(rest, maxLength), maxLength);
    assert SplitLoop(rest, maxLength) == [head] + tail;
    Associate(done, [head], tail);
  }

  lemma Associate<T>(a: seq<T>, b: seq<T>, c: seq<T>)
    ensures a + (b + c) == (a + b) + c
  {
  }

  /** The loop as the Python code writes it, shown to compute `SplitMessage`. */
  method SplitMessageLoop(message: string, maxLength: nat) returns (parts: seq<string>)
    requires maxLength > 0
    ensures parts == SplitMessage(message, maxLength)
    ensures forall i :: 0 <= i < |parts| ==> |parts[i]| <= maxLength
  {
    if |message| <= maxLength {
      return [message];
    }
    parts := [];
    var rest := message;
    EmptyPrefix(SplitLoop(message, maxLength));
    while |rest| > maxLength
      invariant parts + SplitLoop(rest, maxLength) == SplitLoop(message, maxLength)
      decreases |rest|
    {
      var head := rest[..CutIndex(rest, maxLength)];
      var next := Remainder(rest, maxLength);
      SplitLoopStep(parts, rest, maxLength);
      parts := parts + [head];
      rest := next;
    }
    SplitLoopShort(parts, rest, maxLength);
    if rest != [] {
      parts := parts + [rest];
    }
  }

  /** Nothing finished yet: the pending parts are all the parts. */
  lemma EmptyPrefix(s: seq<string>)
    ensures [] + s == s
  {
  }

  /** What is left once the loop stops is one last part, unless it is empty. */
  lemma SplitLoopShort(done: seq<string>, rest: string, maxLength: nat)
    requires 0 < maxLength && |rest| <= maxLength
    ensures done + SplitLoop(rest, maxLength) == if rest == [] then done else done + [rest]
  {
  }

  /** Concatenation of all parts. */
  function Concat(parts: seq<string>): string {
    if parts == [] then [] else parts[0] + Concat(parts[1..])
  }

  /** The characters of `s` that are not whitespace, in order. */
  function NonSpace(s: string): string {
    if s == [] then [] else (if IsSpace(s[0]) then [] else [s[0]]) + NonSpace(s[1..])
  }

  lemma {:induction false} NonSpaceAppend(a: string, b: string)
    ensures NonSpace(a + b) == NonSpace(a) + NonSpace(b)
  {
    if a == [] {
      assert a + b == b;
    } else {
      assert (a + b)[0] == a[0];
      assert (a + b)[1..] == a[1..] + b;
      NonSpaceAppend(a[1..], b);
    }
  }

  lemma {:induction false} NonSpaceLStrip(s: string)
    ensures NonSpace(LStrip(s)) == NonSpace(s)
  {
    if s != [] && IsSpace(s[0]) {
      NonSpaceLStrip(s[1..]);
    }
  }

  /** A cut at any position, with the rest left-stripped, keeps the visible text. */
  lemma {:induction false} CutAtKeepsText(m: string, k: nat)
    requires k <= |m|
    ensures NonSpace(m[..k]) + NonSpace(LStrip(m[k..])) == NonSpace(m)
  {
    var head, tail := m[..k], m[k..];
    assert head + tail == m;
    NonSpaceLStrip(tail);
    NonSpaceAppend(head, tail);
  }

  /** One cut keeps the visible text: the part plus what remains. */
  lemma {:induction false} CutKeepsText(m: string, maxLength: nat)
    requires 0 < maxLength < |m|
    ensures NonSpace(m[..CutIndex(m, maxLength)]) + NonSpace(Remainder(m, maxLength)) == NonSpace(m)
  {
    CutAtKeepsText(m, CutIndex(m, maxLength));
  }

  lemma {:induction false} SplitLoopKeepsText(m: string, maxLength: nat)
    requires maxLength > 0
    ensures NonSpace(Concat(SplitLoop(m, maxLength))) == NonSpace(m)
    decreases |m|
  {
    if |m| > maxLength {
      var head := m[..CutIndex(m, maxLength)];
      var rest := Remainder(m, maxLength);
      var tail := SplitLoop(rest, maxLength);
      assert SplitLoop(m, maxLength) == [head] + tail;
      assert Concat([head] + tail) == head + Concat(tail);
      SplitLoopKeepsText(rest, maxLength);
      NonSpaceAppend(head, Concat(tail));
      CutKeepsText(m, maxLength);
    } else if m != [] {
      assert Concat([m]) == m;
    }
  }

  /**
   * Splitting loses no visible character: apart from the whitespace dropped
   * at the cuts, the parts read back as the message.
   */
  lemma SplitKeepsText(m: string, maxLength: nat)
    requires maxLength > 0
    ensures NonSpace(Concat(SplitMessage(m, maxLength))) == NonSpace(m)
  {
    if |m| <= maxLength {
      assert Concat([m]) == m;
    } else {
      SplitLoopKeepsText(m, maxLength);
    }
  }
}
