/**
 * The endpoint's Zigbee signature (`Endpoint.zigbee_signature`): the
 * endpoint id, the profile id and device type in four-digit hex form, and the
 * input and output cluster ids sorted ascending in the same form.
 */
module Signature {
  import opened ZigbeeTypes
  import opened Formatting

  datatype ZigbeeSignature = ZigbeeSignature(
    endpointId: nat,
    profileId: string,
    deviceType: string,
    inputClusters: seq<string>,
    outputClusters: seq<string>)

  predicate StrictlyAscending(s: seq<nat>)
  {
    forall i, j | 0 <= i < j < |s| :: s[i] < s[j]
  }

  lemma {:induction false} HasMinimum(s: set<nat>)
    requires s != {}
    ensures exists m :: m in s && forall x | x in s :: m <= x
  {
    var y :| y in s;
    var others := s - {y};
    var m := y;
    if others != {} {
      HasMinimum(others);
      var m' :| m' in others && forall x | x in others :: m' <= x;
      if m' < y {
        m := m';
      }
    }
    forall x | x in s
      ensures m <= x
    {
      if x != y {
        assert x in others;
      }
    }
    assert m in s;
  }

  function Minimum(s: set<nat>): (m: nat)
    requires s != {}
    ensures m in s && forall x | x in s :: m <= x
  {
    HasMinimum(s);
    var m :| m in s && forall x | x in s :: m <= x;
    m
  }

  /** The ids of a set in ascending order. */
  function SortedIds(ids: set<nat>): (r: seq<nat>)
    ensures StrictlyAscending(r)
    ensures forall x :: x in r <==> x in ids
    ensures |r| == |ids|
    decreases ids
  {
    if ids == {} then []
    else
      var m := Minimum(ids);
      var rest := SortedIds(ids - {m});
      assert forall x | x in rest :: m < x;
      [m] + rest
  }

  /** Each id of a list in four-digit hexadecimal form. */
  function RenderIds(ids: seq<nat>): (r: seq<string>)
    ensures |r| == |ids|
    ensures forall i | 0 <= i < |r| :: r[i] == Hex04(ids[i])
  {
    seq(|ids|, i requires 0 <= i < |ids| => Hex04(ids[i]))
  }

  function RenderOptional(v: Option<nat>): (r: string)
    ensures v.None? ==> r == ""
    ensures v.Some? ==> IsHex04(r) && Value(r[2..], 16) == v.value
    ensures v.Some? && v.value < 0x1_0000 ==> |r| == 6
  {
    if v.Some? then Hex04(v.value) else ""
  }

  /** The value each rendered cluster id stands for. */
  function ParsedIds(r: seq<string>): (ids: seq<nat>)
    ensures |ids| == |r|
  {
    seq(|r|, i requires 0 <= i < |r| => if |r[i]| >= 2 then Value(r[i][2..], 16) else 0)
  }

  /** `Endpoint.zigbee_signature`. */
  function Signature(ep: ZigpyEndpoint): (sig: ZigbeeSignature)
    ensures sig.endpointId == ep.endpointId
    ensures sig.profileId == "" <==> ep.profileId.None?
    ensures ep.profileId.Some? ==> IsHex04(sig.profileId) && Value(sig.profileId[2..], 16) == ep.profileId.value
    ensures ep.profileId.Some? && ep.profileId.value < 0x1_0000 ==> |sig.profileId| == 6
    ensures sig.deviceType == "" <==> ep.deviceType.None?
    ensures ep.deviceType.Some? ==> IsHex04(sig.deviceType) && Value(sig.deviceType[2..], 16) == ep.deviceType.value
    ensures ep.deviceType.Some? && ep.deviceType.value < 0x1_0000 ==> |sig.deviceType| == 6
    ensures |sig.inputClusters| == |ep.inClusters| && |sig.outputClusters| == |ep.outClusters|
    ensures forall i | 0 <= i < |sig.inputClusters| :: IsHex04(sig.inputClusters[i])
    ensures forall i | 0 <= i < |sig.outputClusters| :: IsHex04(sig.outputClusters[i])
    ensures forall i | 0 <= i < |sig.inputClusters| && ParsedIds(sig.inputClusters)[i] < 0x1_0000 :: |sig.inputClusters[i]| == 6
    ensures forall i | 0 <= i < |sig.outputClusters| && ParsedIds(sig.outputClusters)[i] < 0x1_0000 :: |sig.outputClusters[i]| == 6
    ensures StrictlyAscending(ParsedIds(sig.inputClusters))
    ensures StrictlyAscending(ParsedIds(sig.outputClusters))
    ensures forall cid :: cid in ParsedIds(sig.inputClusters) <==> cid in ep.inClusters
    ensures forall cid :: cid in ParsedIds(sig.outputClusters) <==> cid in ep.outClusters
  {
    SortedRendering(ep.inClusters.Keys);
    SortedRendering(ep.outClusters.Keys);
    ZigbeeSignature(
      ep.endpointId,
      RenderOptional(ep.profileId),
      RenderOptional(ep.deviceType),
      RenderIds(SortedIds(ep.inClusters.Keys)),
      RenderIds(SortedIds(ep.outClusters.Keys)))
  }

  lemma SortedRendering(ids: set<nat>)
    ensures var r := RenderIds(SortedIds(ids));
      && |r| == |ids|
      && (forall i | 0 <= i < |r| :: IsHex04(r[i]))
      && ParsedIds(r) == SortedIds(ids)
      && (forall i | 0 <= i < |r| && SortedIds(ids)[i] < 0x1_0000 :: |r[i]| == 6)
  {
    var r := RenderIds(SortedIds(ids));
    assert ParsedIds(r) == SortedIds(ids);
  }

  lemma SortedPair(a: nat, b: nat)
    requires a < b
    ensures SortedIds({a, b}) == [a, b]
  {
    var r := SortedIds({a, b});
    assert r[0] in {a, b} && r[1] in {a, b};
  }

  lemma SortedSingle(a: nat)
    ensures SortedIds({a}) == [a]
  {
    var r := SortedIds({a});
    assert r[0] in {a};
  }

  lemma RenderedInputsExample()
    ensures RenderIds(SortedIds({0, 0x12})) == ["0x0000", "0x0012"]
  {
    SortedPair(0, 0x12);
    Hex04ZeroExample();
    Hex04ClusterExamples();
  }

  lemma RenderedOutputsExample()
    ensures RenderIds(SortedIds({0x19})) == ["0x0019"]
  {
    SortedSingle(0x19);
    Hex04ClusterExamples();
  }

  /** Profile 0x0104, device type 0x0051, inputs {0x0000, 0x0012}, output {0x0019}. */
  lemma SignatureExample(ep: ZigpyEndpoint)
    requires ep.endpointId == 1 && ep.profileId == Some(0x0104) && ep.deviceType == Some(0x0051)
    requires ep.inClusters.Keys == {0, 0x12} && ep.outClusters.Keys == {0x19}
    ensures Signature(ep) == ZigbeeSignature(1, "0x0104", "0x0051", ["0x0000", "0x0012"], ["0x0019"])
  {
    Hex04Example();
    Hex04DeviceTypeExample();
    RenderedInputsExample();
    RenderedOutputsExample();
  }
}
