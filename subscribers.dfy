/** The store's subscriber list: handler identities in registration order, the
    `indexOf` search and the `splice` the unsubscribe closure performs. */
module Subscribers {

  /** A handler, known only by its identity (JavaScript compares functions by reference). */
  type HandlerId = nat

  /** `s.indexOf(h)`: the position of the first occurrence of `h`, or -1. */
  function IndexOf(s: seq<HandlerId>, h: HandlerId): (i: int)
    ensures -1 <= i < |s|
    ensures i == -1 ==> h !in s
    ensures 0 <= i ==> s[i] == h && forall j :: 0 <= j < i ==> s[j] != h
  {
    if s == [] then -1
    else if s[0] == h then 0
    else
      var k := IndexOf(s[1..], h);
      if k == -1 then -1 else k + 1
  }

  /** The `indexOf` search as the loop it is. */
  method FindIndex(s: seq<HandlerId>, h: HandlerId) returns (index: int)
    ensures index == IndexOf(s, h)
  {
    index := 0;
    while index < |s| && s[index] != h
      invariant 0 <= index <= |s|
      invariant forall j :: 0 <= j < index ==> s[j] != h
    {
      index := index + 1;
    }
    if index == |s| {
      index := -1;
    }
  }

  /** Number of entries of `h` in `s`. */
  function Count(s: seq<HandlerId>, h: HandlerId): nat {
    multiset(s)[h]
  }

  /** `s` with every entry of `h` filtered out, the rest in order. */
  function Without(s: seq<HandlerId>, h: HandlerId): (r: seq<HandlerId>)
    ensures h !in r
  {
    if s == [] then []
    else (if s[0] == h then [] else [s[0]]) + Without(s[1..], h)
  }

  lemma {:induction false} WithoutAppend(a: seq<HandlerId>, b: seq<HandlerId>, h: HandlerId)
    ensures Without(a + b, h) == Without(a, h) + Without(b, h)
  {
    if a == [] {
      assert a + b == b;
    } else {
      assert (a + b)[0] == a[0];
      assert (a + b)[1..] == a[1..] + b;
      WithoutAppend(a[1..], b, h);
    }
  }

  lemma {:induction false} WithoutAbsent(s: seq<HandlerId>, h: HandlerId)
    requires h !in s
    ensures Without(s, h) == s
  {
    if s != [] {
      assert h !in s[1..];
      WithoutAbsent(s[1..], h);
    }
  }

  /** Splicing out the entry at `i` removes one entry of `s[i]` and nothing else. */
  lemma SpliceRemovesOne(s: seq<HandlerId>, i: int)
    requires 0 <= i < |s|
    ensures multiset(s[..i] + s[i + 1..]) == multiset(s) - multiset{s[i]}
    ensures Without(s[..i] + s[i + 1..], s[i]) == Without(s, s[i])
  {
    SpliceMultiset(s, i);
    SpliceWithout(s, i);
  }

  lemma SpliceMultiset(s: seq<HandlerId>, i: int)
    requires 0 <= i < |s|
    ensures multiset(s[..i] + s[i + 1..]) == multiset(s) - multiset{s[i]}
  {
    assert s == s[..i] + [s[i]] + s[i + 1..];
  }

  lemma SpliceWithout(s: seq<HandlerId>, i: int)
    requires 0 <= i < |s|
    ensures Without(s[..i] + s[i + 1..], s[i]) == Without(s, s[i])
  {
    var x, before, after := s[i], s[..i], s[i + 1..];
    var tail := [x] + after;
    assert s == before + tail;
    assert tail[0] == x && tail[1..] == after;
    assert Without(tail, x) == Without(after, x);
    WithoutAppend(before, tail, x);
    WithoutAppend(before, after, x);
  }

  /** The list after the unsubscribe closure for `h` has run, as the code is
      written: the first entry of `h` is spliced out only when its index is
      greater than 0. */
  function Unsubscribed(s: seq<HandlerId>, h: HandlerId): (r: seq<HandlerId>)
    ensures IndexOf(s, h) <= 0 ==> r == s
    ensures 0 < IndexOf(s, h) ==> |r| == |s| - 1
    ensures 0 < IndexOf(s, h) ==> forall j :: 0 <= j < IndexOf(s, h) ==> r[j] == s[j]
    ensures 0 < IndexOf(s, h) ==> forall j :: IndexOf(s, h) <= j < |r| ==> r[j] == s[j + 1]
  {
    var index := IndexOf(s, h);
    if index > 0 then s[..index] + s[index + 1..] else s
  }

  /** Unsubscribing changes nothing exactly when `h` is absent or comes first;
      otherwise it removes one entry of `h`. */
  lemma UnsubscribedChangesIff(s: seq<HandlerId>, h: HandlerId)
    ensures Unsubscribed(s, h) == s <==> h !in s || s[0] == h
    ensures Unsubscribed(s, h) != s ==> |Unsubscribed(s, h)| == |s| - 1
  {
  }

  /** The first-registered handler can never be unsubscribed. */
  lemma FirstHandlerNeverRemoved(s: seq<HandlerId>)
    requires s != []
    ensures Unsubscribed(s, s[0]) == s
  {
  }

  /** Unsubscribing removes at most one entry, the first entry of `h`, and keeps
      every other handler, in order. */
  lemma UnsubscribedRemovesOnlyH(s: seq<HandlerId>, h: HandlerId)
    ensures IndexOf(s, h) > 0 ==> Unsubscribed(s, h)[..IndexOf(s, h)] == s[..IndexOf(s, h)]
    ensures IndexOf(s, h) > 0 ==> Unsubscribed(s, h)[IndexOf(s, h)..] == s[IndexOf(s, h) + 1..]
    ensures Without(Unsubscribed(s, h), h) == Without(s, h)
    ensures Count(Unsubscribed(s, h), h) == if IndexOf(s, h) > 0 then Count(s, h) - 1 else Count(s, h)
    ensures forall x :: x != h ==> Count(Unsubscribed(s, h), x) == Count(s, x)
  {
    var index := IndexOf(s, h);
    if index > 0 {
      SpliceRemovesOne(s, index);
    }
  }

  /** Calling the same unsubscribe closure `k` times. */
  function UnsubscribedTimes(s: seq<HandlerId>, h: HandlerId, k: nat): seq<HandlerId> {
    if k == 0 then s else UnsubscribedTimes(Unsubscribed(s, h), h, k - 1)
  }

  /** When `h` is the first subscriber, no number of calls removes anything. */
  lemma {:induction false} FirstHandlerStuckForever(s: seq<HandlerId>, k: nat)
    requires s != []
    ensures UnsubscribedTimes(s, s[0], k) == s
  {
    if k > 0 {
      FirstHandlerNeverRemoved(s);
      FirstHandlerStuckForever(s, k - 1);
    }
  }

  /** Otherwise each call removes one further entry of `h`: after as many calls as
      there are entries, none is left and the other handlers remain in order. */
  lemma {:induction false} RepeatedUnsubscribeRemovesAll(s: seq<HandlerId>, h: HandlerId)
    requires s == [] || s[0] != h
    ensures UnsubscribedTimes(s, h, Count(s, h)) == Without(s, h)
    decreases Count(s, h)
  {
    if h !in s {
      WithoutAbsent(s, h);
    } else {
      var s' := Unsubscribed(s, h);
      var index := IndexOf(s, h);
      assert index > 0;
      UnsubscribedRemovesOnlyH(s, h);
      assert s'[0] == s[0];
      RepeatedUnsubscribeRemovesAll(s', h);
    }
  }

  /** Subscribing a new handler and then unsubscribing it restores the list,
      unless the list was empty, in which case the handler stays. */
  lemma SubscribeThenUnsubscribe(s: seq<HandlerId>, h: HandlerId)
    requires h !in s
    ensures Unsubscribed(s + [h], h) == (if s == [] then [h] else s)
  {
    assert IndexOf(s + [h], h) == |s|;
    assert (s + [h])[..|s|] == s;
  }

  /** What the closure evidently means to do: remove the first entry of `h`
      wherever it is. */
  function UnsubscribedIntended(s: seq<HandlerId>, h: HandlerId): (r: seq<HandlerId>)
    ensures h in s ==> Count(r, h) == Count(s, h) - 1 && |r| == |s| - 1
    ensures h !in s ==> r == s
    ensures Without(r, h) == Without(s, h)
    ensures forall x :: x != h ==> Count(r, x) == Count(s, x)
  {
    var index := IndexOf(s, h);
    if index >= 0 then
      SpliceRemovesOne(s, index);
      s[..index] + s[index + 1..]
    else
      s
  }

  /** With the intended closure, subscribing a new handler and unsubscribing it
      always restores the list. */
  lemma SubscribeThenUnsubscribeIntended(s: seq<HandlerId>, h: HandlerId)
    requires h !in s
    ensures UnsubscribedIntended(s + [h], h) == s
  {
    assert IndexOf(s + [h], h) == |s|;
    assert (s + [h])[..|s|] == s;
  }
}
