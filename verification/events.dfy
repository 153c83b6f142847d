/**
 * `EventDispatcher`: an ordered list of subscribers without duplicates,
 * notified in order; and the equality of `EventDispatcherException`.
 */
module Events {
  import opened Wrappers

  predicate Distinct<T(==,!new)>(s: seq<T>) {
    forall i, j :: 0 <= i < j < |s| ==> s[i] != s[j]
  }

  /** `add_subscriber`: appended when absent, otherwise nothing changes. */
  function AddSubscriber<T(==,!new)>(subs: seq<T>, s: T): (r: seq<T>)
    ensures forall x :: x in r <==> x in subs || x == s
    ensures |subs| <= |r| <= |subs| + 1 && r[..|subs|] == subs
    ensures Distinct(subs) ==> Distinct(r)
  {
    if s in subs then subs else subs + [s]
  }

  /** Adding twice is adding once. */
  lemma AddIdempotent<T(!new)>(subs: seq<T>, s: T)
    ensures AddSubscriber(AddSubscriber(subs, s), s) == AddSubscriber(subs, s)
  {
  }

  /** The position `list.remove` drops: the first occurrence. */
  function FirstIndex<T(==,!new)>(subs: seq<T>, s: T): (r: nat)
    requires s in subs
    ensures r < |subs| && subs[r] == s && s !in subs[..r]
  {
    if subs[0] == s then 0
    else
      var j := FirstIndex(subs[1..], s);
      assert subs[..j + 1] == [subs[0]] + subs[1..][..j];
      j + 1
  }

  /** Dropping one position keeps every other element, in order, and keeps a list without duplicates so. */
  lemma DropKeepsOthers<T(!new)>(subs: seq<T>, i: nat)
    requires i < |subs| && Distinct(subs)
    ensures var r := subs[..i] + subs[i + 1..];
            Distinct(r) && forall x :: x in r <==> x in subs && x != subs[i]
  {
    var r := subs[..i] + subs[i + 1..];
    assert forall k :: 0 <= k < |r| ==> r[k] == subs[if k < i then k else k + 1];
    forall x | x in subs && x != subs[i]
      ensures x in r
    {
      var k :| 0 <= k < |subs| && subs[k] == x;
      assert r[if k < i then k else k - 1] == x;
    }
  }

  /** `remove_subscriber`: a present subscriber is removed, an absent one is a no-op. */
  function RemoveSubscriber<T(==,!new)>(subs: seq<T>, s: T): (r: seq<T>)
    ensures s !in subs ==> r == subs
    ensures s in subs ==> |r| == |subs| - 1
    ensures Distinct(subs) ==> Distinct(r) && forall x :: x in r <==> x in subs && x != s
  {
    if s in subs then
      var i := FirstIndex(subs, s);
      if Distinct(subs) then DropKeepsOthers(subs, i); subs[..i] + subs[i + 1..]
      else subs[..i] + subs[i + 1..]
    else subs
  }

  /** Removing what was just added to a list without it gives the list back. */
  lemma RemoveUndoesAdd<T(!new)>(subs: seq<T>, s: T)
    requires s !in subs
    ensures RemoveSubscriber(AddSubscriber(subs, s), s) == subs
  {
    var added := subs + [s];
    var i := FirstIndex(added, s);
    assert i == |subs|;
    assert added[..i] == subs;
  }

  /** An exception as the dispatcher sees it: its own kind, carrying a message, or any other. */
  datatype Exception = DispatcherException(message: string) | OtherException(name: string)

  /** `EventDispatcherException.__eq__`: only another dispatcher exception with the same message is equal. */
  predicate ExceptionEq(self: Exception, other: Exception)
    requires self.DispatcherException?
  {
    other.DispatcherException? && self.message == other.message
  }

  /** `__ne__`: the negation of `__eq__`. */
  predicate ExceptionNe(self: Exception, other: Exception)
    requires self.DispatcherException?
  {
    !ExceptionEq(self, other)
  }

  /** Equality of dispatcher exceptions is equality of their messages, symmetric, and `__ne__` is its complement. */
  lemma ExceptionEquality(a: Exception, b: Exception)
    requires a.DispatcherException?
    ensures ExceptionEq(a, b) <==> a == b
    ensures b.DispatcherException? ==> (ExceptionEq(a, b) <==> ExceptionEq(b, a))
    ensures ExceptionNe(a, b) <==> a != b
  {
  }

  /** The message `notify` raises with when a subscriber fails with a dispatcher exception. */
  const NotifyFailure: string := "The event dispatcher failed to notify its subscribers"

  /** What one `subscriber.update` call does. */
  datatype Update = Updated | Raises(e: Exception)

  /** The subscribers whose `update` was called, in order, and the exception `notify` ends with, if any. */
  datatype Notified<T> = Notified(called: seq<T>, raised: Option<Exception>)



  /**
   * `notify`: every subscriber's `update`, in list order, until one raises.
   * A dispatcher exception is replaced by a new one with the fixed message;
   * any other exception propagates as it is.
   */
  function Notify<T>(subs: seq<T>, update: T -> Update): (r: Notified<T>)
    ensures |r.called| <= |subs| && r.called == subs[..|r.called|]
    ensures r.raised.None? ==> r.called == subs
    ensures r.raised.Some? ==> r.called != []
  {
    if subs == [] then Notified([], None)
    else match update(subs[0])
      case Raises(e) =>
        Notified([subs[0]], Some(if e.DispatcherException? then DispatcherException(NotifyFailure) else e))
      case Updated =>
        var rest := Notify(subs[1..], update);
        assert subs[..|rest.called| + 1] == [subs[0]] + subs[1..][..|rest.called|];
        Notified([subs[0]] + rest.called, rest.raised)
  }

  /**
   * `notify` ends quietly exactly when every subscriber updates; otherwise
   * every subscriber before the last one called updated, and the last one
   * raised what `notify` raises, a dispatcher exception being replaced by
   * the fixed one.
   */
  lemma {:induction false} NotifyOutcome<T>(subs: seq<T>, update: T -> Update)
    ensures var r := Notify(subs, update);
            && (r.raised.None? <==> forall k :: 0 <= k < |subs| ==> update(subs[k]).Updated?)
            && (r.raised.Some? ==>
                  && (forall k :: 0 <= k < |r.called| - 1 ==> update(r.called[k]).Updated?)
                  && var e := update(r.called[|r.called| - 1]);
                     && e.Raises?
                     && r.raised.value == (if e.e.DispatcherException? then DispatcherException(NotifyFailure) else e.e))
  {
    if subs != [] && update(subs[0]).Updated? {
      var rest := Notify(subs[1..], update);
      NotifyOutcome(subs[1..], update);
      var r := Notify(subs, update);
      assert r.called == [subs[0]] + rest.called;
      assert forall k :: 1 <= k < |subs| ==> subs[k] == subs[1..][k - 1];
      assert forall k :: 1 <= k < |r.called| ==> r.called[k] == rest.called[k - 1];
    }
  }
}
