/** What the fragment receiver of runtime/emqtt_receive_internal.h accepts, written out field
    by field: the fragments of one message, in order, each where the ones before it end. */
module Fragments {
  import opened Bytes
  import opened TextRules
  import opened Reassembly

  /** Bytes announced by the first `k` fragments. */
  function Lengths(fs: seq<Fragment>, k: nat): (n: int)
    requires k <= |fs|
  {
    if k == 0 then 0 else Lengths(fs, k - 1) + fs[k - 1].dataLength
  }

  /** Fragment `k` is well formed, belongs to the message of the first one and starts where
      the ones before it end; only the last one may fill the message. */
  predicate InPlace(fs: seq<Fragment>, k: nat, capacity: nat)
    requires k < |fs|
  {
    var f, g := fs[k], fs[0];
    && f.topicLength >= 0 && f.dataLength >= 0 && (f.dataLength > 0 ==> f.data.Some?)
    && f.total == g.total && 0 <= f.total <= 4096 && f.total <= capacity
    && f.offset == Lengths(fs, k) && f.offset + f.dataLength <= f.total
    && (k + 1 < |fs| ==> f.offset + f.dataLength < f.total)
    && (f.dataLength == 0 ==> f.offset == 0)
    && f.id == g.id && f.qos == g.qos && f.retain == g.retain && f.dup == g.dup
    && ((f.qos == 0 && f.id == 0) || (f.qos == 1 && 1 <= f.id <= 65535))
    && (k > 0 && f.topicLength > 0 ==> f.topic == g.topic)
  }

  ghost predicate OneMessage(fs: seq<Fragment>, capacity: nat) {
    && fs != [] && fs[0].topic.Some? && TopicOk(fs[0].topic.value, false)
    && forall k :: 0 <= k < |fs| ==> InPlace(fs, k, capacity)
  }

  lemma {:induction false} LengthsPrefix(fs: seq<Fragment>, n: nat, k: nat)
    requires k <= n <= |fs|
    ensures Lengths(fs[..n], k) == Lengths(fs, k)
  {
    if k > 0 { LengthsPrefix(fs, n, k - 1); }
  }

  /** The data joined is as long as announced. */
  lemma {:induction false} JoinedLength(fs: seq<Fragment>)
    requires AllCovered(fs)
    requires forall k :: 0 <= k < |fs| ==> fs[k].dataLength >= 0 && (fs[k].dataLength > 0 ==> fs[k].data.Some?)
    ensures |Joined(fs)| == Lengths(fs, |fs|)
  {
    if fs != [] {
      var n := |fs| - 1;
      JoinedLength(fs[..n]);
      LengthsPrefix(fs, n, n);
      assert Covered(fs[n]);
    }
  }

  lemma {:induction false} CuttingShapes(fs: seq<Fragment>, capacity: nat)
    requires Cutting(fs, capacity)
    ensures forall k :: 0 <= k < |fs| ==> fs[k].dataLength >= 0 && (fs[k].dataLength > 0 ==> fs[k].data.Some?)
  {
    if |fs| > 1 {
      var init := fs[..|fs| - 1];
      CuttingShapes(init, capacity);
      assert forall k :: 0 <= k < |init| ==> init[k] == fs[k];
    }
  }

  /** The fragments before the last are in place in both sequences, but for the clause that
      they do not fill the message. */
  lemma PrefixInPlace(fs: seq<Fragment>, k: nat, capacity: nat)
    requires |fs| >= 2 && k < |fs| - 1
    ensures InPlace(fs, k, capacity) <==>
            InPlace(fs[..|fs| - 1], k, capacity)
            && (k == |fs| - 2 ==> fs[k].offset + fs[k].dataLength < fs[k].total)
  {
    LengthsPrefix(fs, |fs| - 1, k);
    hide Lengths;
  }

  lemma OneMessageStep(fs: seq<Fragment>, capacity: nat)
    requires |fs| >= 2
    ensures var n := |fs| - 1;
            OneMessage(fs, capacity) <==>
            OneMessage(fs[..n], capacity) && fs[n - 1].offset + fs[n - 1].dataLength < fs[n - 1].total
            && InPlace(fs, n, capacity)
  {
    var n := |fs| - 1;
    hide TopicOk, InPlace;
    forall k | 0 <= k < n
      ensures InPlace(fs, k, capacity) <==>
              InPlace(fs[..n], k, capacity) && (k == n - 1 ==> fs[k].offset + fs[k].dataLength < fs[k].total)
    {
      PrefixInPlace(fs, k, capacity);
    }
    if OneMessage(fs, capacity) { assert InPlace(fs, n - 1, capacity); }
    if OneMessage(fs[..n], capacity) { assert InPlace(fs[..n], n - 1, capacity); }
  }

  lemma CuttingStep(fs: seq<Fragment>, capacity: nat)
    requires |fs| >= 2
    ensures var n := |fs| - 1;
            Cutting(fs, capacity) <==>
            && Cutting(fs[..n], capacity) && InRange(fs[n], capacity)
            && fs[0].topic.Some? && 0 <= fs[0].total <= capacity
            && |Joined(fs[..n])| < fs[0].total
            && Continues(fs[n], InfoOf(fs[0]), |Joined(fs[..n])|)
  {
    hide InRange, Continues, Opens, Joined;
  }

  lemma LastInPlace(fs: seq<Fragment>, capacity: nat)
    requires |fs| >= 2 && AllCovered(fs) && OneMessage(fs[..|fs| - 1], capacity)
    ensures var n := |fs| - 1;
            && fs[n - 1].total == fs[0].total && 0 <= fs[0].total <= capacity && fs[0].topic.Some?
            && |Joined(fs[..n])| == Lengths(fs, n) == fs[n - 1].offset + fs[n - 1].dataLength
            && (Lengths(fs, n) < fs[0].total ==>
                 (InPlace(fs, n, capacity) <==>
                  InRange(fs[n], capacity) && Continues(fs[n], InfoOf(fs[0]), Lengths(fs, n))))
  {
    var n := |fs| - 1;
    var init := fs[..n];
    assert InPlace(init, n - 1, capacity) && InPlace(init, 0, capacity);
    assert init[n - 1] == fs[n - 1] && init[0] == fs[0];
    InPlaceShapes(init, capacity);
    JoinedLength(init);
    LengthsPrefix(fs, n, n);
    LengthsPrefix(fs, n, n - 1);
    assert Covered(fs[n]) && Covered(fs[0]);
    hide TopicOk, OneMessage, Joined;
  }

  lemma InPlaceShapes(fs: seq<Fragment>, capacity: nat)
    requires OneMessage(fs, capacity)
    ensures forall k :: 0 <= k < |fs| ==> fs[k].dataLength >= 0 && (fs[k].dataLength > 0 ==> fs[k].data.Some?)
  {
    forall k | 0 <= k < |fs| ensures fs[k].dataLength >= 0 && (fs[k].dataLength > 0 ==> fs[k].data.Some?) {
      assert InPlace(fs, k, capacity);
    }
  }

  lemma {:induction false} CuttingIsOneMessage(fs: seq<Fragment>, capacity: nat)
    requires AllCovered(fs)
    ensures Cutting(fs, capacity) <==> OneMessage(fs, capacity)
  {
    if |fs| == 1 {
      assert Lengths(fs, 0) == 0;
      hide TopicOk;
      assert OneMessage(fs, capacity) <==>
             fs[0].topic.Some? && TopicOk(fs[0].topic.value, false) && InPlace(fs, 0, capacity);
    } else if |fs| >= 2 {
      var n := |fs| - 1;
      CuttingIsOneMessage(fs[..n], capacity);
      CuttingStep(fs, capacity);
      OneMessageStep(fs, capacity);
      if OneMessage(fs[..n], capacity) { LastInPlace(fs, capacity); }
      hide *;
    }
  }

  /** A receiver at rest completes exactly when the fragments are those of one message and
      fill it; what it hands over are the fields of the first and the bytes of all, each
      at its offset. */
  lemma CompletesIff(r: Rx, fs: seq<Fragment>)
    requires AllCovered(fs) && fs != [] && !r.active
    ensures Answers(Feed(r, fs).1, Complete) <==>
            OneMessage(fs, |r.payload|) && Lengths(fs, |fs|) == fs[0].total
    ensures Answers(Feed(r, fs).1, Complete) ==>
              var (m, f) := (Feed(r, fs).0, fs[0]);
              && f.topic.Some? && m.info.topic == f.topic.value && m.info.length == f.total
              && m.info.id == f.id && m.info.qos == f.qos && m.info.retain == f.retain && m.info.dup == f.dup
              && f.total <= |m.payload| && m.payload[..f.total] == Joined(fs)
  {
    CuttingIsOneMessage(fs, |r.payload|);
    ReassemblyExact(r, fs);
    if OneMessage(fs, |r.payload|) {
      InPlaceShapes(fs, |r.payload|);
      JoinedLength(fs);
    }
    hide Feed, Answers, OneMessage, Lengths, Joined, TopicOk;
  }
}
