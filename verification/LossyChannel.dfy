/** The bounded Go channel that both fan-out points of the pipeline write to with a
    non-blocking send: a full buffer makes the sender drop the value and carry on.
    `offered` and `depths` are history: every value a sender tried to send, and how many
    values the buffer held at that moment. */
module LossyChannel {
  import opened Sequences

  const CAPACITY: nat := 64

  datatype Channel<T> = Channel(offered: seq<T>, depths: seq<nat>, taken: seq<T>, buffer: seq<T>, closed: bool)

  function Make<T>(): Channel<T> {
    Channel([], [], [], [], false)
  }

  /** `select { case ch <- x: default: }` */
  function Offer<T>(c: Channel<T>, x: T): Channel<T> {
    var seen := c.(offered := c.offered + [x], depths := c.depths + [|c.buffer|]);
    if |c.buffer| < CAPACITY then seen.(buffer := c.buffer + [x]) else seen
  }

  /** `<-ch` on a channel that holds a value. */
  function Take<T>(c: Channel<T>): Channel<T>
    requires c.buffer != []
  {
    c.(taken := c.taken + [c.buffer[0]], buffer := c.buffer[1..])
  }

  function Close<T>(c: Channel<T>): Channel<T> {
    c.(closed := true)
  }

  /** The offered values whose offer found room. */
  function Accepted<T>(offered: seq<T>, depths: seq<nat>): seq<T>
    requires |depths| == |offered|
  {
    if offered == [] then []
    else
      var n := |offered| - 1;
      var rest := Accepted(offered[..n], depths[..n]);
      if depths[n] < CAPACITY then rest + [offered[n]] else rest
  }

  /** How many offers found the buffer full. */
  function Dropped(depths: seq<nat>): (n: nat)
    ensures n <= |depths|
  {
    if depths == [] then 0
    else Dropped(depths[..|depths| - 1]) + if depths[|depths| - 1] < CAPACITY then 0 else 1
  }

  ghost predicate Valid<T>(c: Channel<T>) {
    && |c.depths| == |c.offered|
    && |c.buffer| <= CAPACITY
    && (forall i :: 0 <= i < |c.depths| ==> c.depths[i] <= CAPACITY && c.depths[i] <= i)
    && c.taken + c.buffer == Accepted(c.offered, c.depths)
  }

  lemma AcceptedSnoc<T>(offered: seq<T>, depths: seq<nat>, x: T, d: nat)
    requires |depths| == |offered|
    ensures Accepted(offered + [x], depths + [d])
         == if d < CAPACITY then Accepted(offered, depths) + [x] else Accepted(offered, depths)
  {
    assert (offered + [x])[..|offered|] == offered;
    assert (depths + [d])[..|depths|] == depths;
  }

  lemma {:induction false} AcceptedLength<T>(offered: seq<T>, depths: seq<nat>)
    requires |depths| == |offered|
    ensures |Accepted(offered, depths)| + Dropped(depths) == |offered|
  {
    if offered != [] {
      var n := |offered| - 1;
      AcceptedLength(offered[..n], depths[..n]);
    }
  }

  lemma OfferValid<T>(c: Channel<T>, x: T)
    requires Valid(c)
    ensures Valid(Offer(c, x))
  {
    AcceptedSnoc(c.offered, c.depths, x, |c.buffer|);
    AcceptedLength(c.offered, c.depths);
    var o := Offer(c, x);
    if |c.buffer| < CAPACITY {
      assert o.taken + o.buffer == c.taken + c.buffer + [x];
    }
  }

  lemma TakeValid<T>(c: Channel<T>)
    requires Valid(c) && c.buffer != []
    ensures Valid(Take(c))
  {
    assert Take(c).taken + Take(c).buffer == c.taken + c.buffer;
  }

  /** What the receiver has taken plus what still waits is an in-order, duplicate-free
      part of what was offered, and every other offer found the buffer full. */
  lemma Conservation<T(!new)>(c: Channel<T>)
    requires Valid(c)
    ensures Subsequence(c.taken + c.buffer, c.offered)
    ensures |c.taken| + |c.buffer| + Dropped(c.depths) == |c.offered|
    ensures Dropped(c.depths) == 0 ==> c.taken + c.buffer == c.offered
  {
    AcceptedSubsequence(c.offered, c.depths);
    AcceptedLength(c.offered, c.depths);
    if Dropped(c.depths) == 0 { NoDropKeepsAll(c.offered, c.depths); }
  }

  lemma {:induction false} AcceptedSubsequence<T(!new)>(offered: seq<T>, depths: seq<nat>)
    requires |depths| == |offered|
    ensures Subsequence(Accepted(offered, depths), offered)
  {
    if offered == [] {
      SubsequenceRefl(offered);
    } else {
      var n := |offered| - 1;
      AcceptedSubsequence(offered[..n], depths[..n]);
      SubsequenceSnoc(Accepted(offered[..n], depths[..n]), offered[..n], offered[n]);
      assert offered == offered[..n] + [offered[n]];
    }
  }

  /** The same for any class of values the receiver looks at. */
  lemma {:induction false} AcceptedFiltered<T(!new)>(keep: T -> bool, offered: seq<T>, depths: seq<nat>)
    requires |depths| == |offered|
    ensures Subsequence(Filter(keep, Accepted(offered, depths)), Filter(keep, offered))
  {
    if offered == [] {
      SubsequenceRefl(offered);
    } else {
      var n := |offered| - 1;
      var rest := Accepted(offered[..n], depths[..n]);
      AcceptedFiltered(keep, offered[..n], depths[..n]);
      FilterSnoc(keep, rest, offered[n]);
      if keep(offered[n]) { SubsequenceSnoc(Filter(keep, rest), Filter(keep, offered[..n]), offered[n]); }
    }
  }

  lemma {:induction false} NoDropKeepsAll<T>(offered: seq<T>, depths: seq<nat>)
    requires |depths| == |offered|
    requires Dropped(depths) == 0
    ensures Accepted(offered, depths) == offered
  {
    if offered != [] {
      var n := |offered| - 1;
      NoDropKeepsAll(offered[..n], depths[..n]);
      assert offered == offered[..n] + [offered[n]];
    }
  }

  /** Where an accepted offer stands among the accepted ones. */
  lemma {:induction false} AcceptedAt<T>(offered: seq<T>, depths: seq<nat>, i: nat)
    requires |depths| == |offered| && i < |offered| && depths[i] < CAPACITY
    ensures var n := i - Dropped(depths[..i]);
      0 <= n < |Accepted(offered, depths)| && Accepted(offered, depths)[n] == offered[i]
  {
    var m := |offered| - 1;
    if i < m {
      AcceptedAt(offered[..m], depths[..m], i);
      assert depths[..m][..i] == depths[..i];
    } else {
      AcceptedLength(offered[..m], depths[..m]);
    }
  }

  /** A value is among the accepted ones exactly when some offer of it found room. */
  lemma {:induction false} AcceptedMember<T>(offered: seq<T>, depths: seq<nat>, x: T)
    requires |depths| == |offered|
    ensures x in Accepted(offered, depths) <==>
      exists j :: 0 <= j < |offered| && offered[j] == x && depths[j] < CAPACITY
  {
    if offered != [] {
      var m := |offered| - 1;
      var os, ds := offered[..m], depths[..m];
      AcceptedMember(os, ds, x);
      if j :| 0 <= j < |offered| && offered[j] == x && depths[j] < CAPACITY {
        if j < m { assert os[j] == x && ds[j] < CAPACITY; }
      }
      if x in Accepted(os, ds) {
        var j :| 0 <= j < |os| && os[j] == x && ds[j] < CAPACITY;
        assert offered[j] == x && depths[j] < CAPACITY;
      }
    }
  }

  /** Something was dropped exactly when some offer found CAPACITY values queued. */
  lemma DroppedExact<T>(c: Channel<T>)
    requires Valid(c)
    ensures Dropped(c.depths) > 0 <==> exists i :: 0 <= i < |c.depths| && c.depths[i] == CAPACITY
  {
    if forall i :: 0 <= i < |c.depths| ==> c.depths[i] < CAPACITY {
      NoneFull(c.depths);
    } else {
      var i :| 0 <= i < |c.depths| && c.depths[i] >= CAPACITY;
      SomeFull(c.depths, i);
    }
  }

  lemma {:induction false} SomeFull(depths: seq<nat>, i: nat)
    requires i < |depths| && depths[i] >= CAPACITY
    ensures Dropped(depths) > 0
  {
    if i < |depths| - 1 { SomeFull(depths[..|depths| - 1], i); }
  }

  /** A drop needs CAPACITY earlier offers, so short histories lose nothing. */
  lemma ShortHistoryKeepsAll<T>(c: Channel<T>)
    requires Valid(c)
    requires |c.offered| <= CAPACITY
    ensures Dropped(c.depths) == 0
    ensures c.taken + c.buffer == c.offered
  {
    NoneFull(c.depths);
    NoDropKeepsAll(c.offered, c.depths);
  }

  lemma {:induction false} NoneFull(depths: seq<nat>)
    requires forall i :: 0 <= i < |depths| ==> depths[i] < CAPACITY
    ensures Dropped(depths) == 0
  {
    if depths != [] { NoneFull(depths[..|depths| - 1]); }
  }
}
