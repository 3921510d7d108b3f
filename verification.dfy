/**
 * Handling of the make/model recognition service's JSON answer: the alarm is
 * played once for every detection entry whose `mmg` list names the target make.
 */
module Verification {
  import opened Wrappers
  import opened Text
  import opened RateLimit

  const TargetMake: string := "jaguar"

  /** One `mmg` candidate of a detection entry; only `make_name` is read. */
  datatype MakeModel = MakeModel(makeName: string)

  /** One entry of `detections`; its `mmg` list may be absent. */
  datatype VehicleEntry = VehicleEntry(mmg: Option<seq<MakeModel>>)

  /** The parsed answer `{ is_success, detections }`. */
  datatype ApiResponse = ApiResponse(isSuccess: bool, detections: seq<VehicleEntry>)

  /** What becomes of one dispatched upload. */
  datatype UploadOutcome =
    | BlobFailed             // `toBlob` handed back no blob
    | RequestFailed          // the fetch or the JSON parse rejected
    | Answered(response: ApiResponse)

  predicate IsTargetMake(m: MakeModel) {
    EqualsIgnoringCase(m.makeName, TargetMake)
  }

  /** `mmg.some(m => m.make_name.toLowerCase() === 'jaguar')`, scanning left to right. */
  function SomeTargetMake(ms: seq<MakeModel>): (found: bool)
    ensures found <==> exists i :: 0 <= i < |ms| && IsTargetMake(ms[i])
  {
    if ms == [] then false
    else if IsTargetMake(ms[0]) then true
    else
      var rest := SomeTargetMake(ms[1..]);
      assert forall i :: 1 <= i < |ms| ==> ms[i] == ms[1..][i - 1];
      rest
  }

  /** `detection.mmg && detection.mmg.some(...)`: an absent list never matches. */
  predicate EntryMatches(e: VehicleEntry) {
    e.mmg.Some? && SomeTargetMake(e.mmg.value)
  }

  /** Number of matching entries. */
  function CountMatches(es: seq<VehicleEntry>): nat {
    if es == [] then 0
    else CountMatches(es[..|es| - 1]) + (if EntryMatches(es[|es| - 1]) then 1 else 0)
  }

  /** Number of times the alarm is played for an answer. */
  function AlarmCount(r: ApiResponse): nat {
    if r.isSuccess && |r.detections| > 0 then CountMatches(r.detections) else 0
  }

  /** The `for (const detection of data.detections)` loop; each match plays the alarm once. */
  method PlayAlarms(data: ApiResponse) returns (plays: nat)
    ensures plays == AlarmCount(data)
  {
    plays := 0;
    if data.isSuccess && |data.detections| > 0 {
      for n := 0 to |data.detections|
        invariant plays == CountMatches(data.detections[..n])
      {
        assert data.detections[..n + 1][..n] == data.detections[..n];
        if EntryMatches(data.detections[n]) {
          plays := plays + 1;
        }
      }
      assert data.detections[..|data.detections|] == data.detections;
    }
  }

  /**
   * One vehicle reaching the gate, and what becomes of the upload it may dispatch. The
   * timestamp moves to `now` as soon as the gate admits, so a failed blob or a failed
   * request still uses up the cooldown; only an answer can play the alarm.
   */
  method DispatchUpload(gate: UploadGate, now: int, outcome: UploadOutcome)
    returns (dispatched: bool, plays: nat)
    requires gate.Valid()
    modifies gate
    ensures gate.Valid()
    ensures dispatched <==> Admits(old(gate.lastUploadedTime), now)
    ensures dispatched ==> gate.lastUploadedTime == now && gate.uploads == old(gate.uploads) + [now]
    ensures !dispatched ==> gate.lastUploadedTime == old(gate.lastUploadedTime) && gate.uploads == old(gate.uploads)
    ensures plays == if dispatched && outcome.Answered? then AlarmCount(outcome.response) else 0
  {
    plays := 0;
    dispatched := gate.Consider(now);
    if dispatched {
      match outcome {
        case BlobFailed =>
        case RequestFailed =>
        case Answered(r) =>
          plays := PlayAlarms(r);
      }
    }
  }

  lemma {:induction false} CountMatchesBounds(es: seq<VehicleEntry>)
    ensures CountMatches(es) <= |es|
    ensures CountMatches(es) > 0 <==> exists i :: 0 <= i < |es| && EntryMatches(es[i])
    ensures CountMatches(es) == |es| <==> forall i :: 0 <= i < |es| ==> EntryMatches(es[i])
  {
    if es != [] {
      var init := es[..|es| - 1];
      CountMatchesBounds(init);
      assert forall i :: 0 <= i < |init| ==> init[i] == es[i];
    }
  }

  /**
   * The alarm sounds only for a successful answer with a matching entry, at most once
   * per entry, and once for every entry when all of them match.
   */
  lemma AlarmCountSpec(r: ApiResponse)
    ensures AlarmCount(r) <= |r.detections|
    ensures AlarmCount(r) > 0 <==>
      r.isSuccess && exists i :: 0 <= i < |r.detections| && EntryMatches(r.detections[i])
    ensures r.isSuccess ==>
      (AlarmCount(r) == |r.detections| <==> forall i :: 0 <= i < |r.detections| ==> EntryMatches(r.detections[i]))
  {
    CountMatchesBounds(r.detections);
  }

  /** Entries are counted independently: the count over a concatenation is the sum. */
  lemma {:induction false} CountMatchesAppend(a: seq<VehicleEntry>, b: seq<VehicleEntry>)
    ensures CountMatches(a + b) == CountMatches(a) + CountMatches(b)
    decreases |b|
  {
    if b == [] {
      assert a + b == a;
    } else {
      var init := b[..|b| - 1];
      assert (a + b)[..|a + b| - 1] == a + init;
      assert (a + b)[|a + b| - 1] == b[|b| - 1];
      CountMatchesAppend(a, init);
    }
  }

  /** A successful answer naming "Jaguar" once plays once; an unsuccessful one never plays. */
  lemma AlarmExamples(entries: seq<VehicleEntry>)
    ensures AlarmCount(ApiResponse(true, [VehicleEntry(Some([MakeModel("Jaguar")]))])) == 1
    ensures AlarmCount(ApiResponse(false, entries)) == 0
    ensures AlarmCount(ApiResponse(true, [VehicleEntry(None)])) == 0
  {
    var e := VehicleEntry(Some([MakeModel("Jaguar")]));
    EqualsIgnoringCaseCharwise("Jaguar", TargetMake);
    assert SomeTargetMake([MakeModel("Jaguar")]);
    assert [e][..0] == [];
  }

  /** Two matching entries in one answer play the alarm twice. */
  lemma AlarmPerMatchingEntry()
    ensures var e := VehicleEntry(Some([MakeModel("Audi"), MakeModel("JAGUAR")]));
      AlarmCount(ApiResponse(true, [e, e])) == 2
  {
    var e := VehicleEntry(Some([MakeModel("Audi"), MakeModel("JAGUAR")]));
    EqualsIgnoringCaseCharwise("JAGUAR", TargetMake);
    assert IsTargetMake(e.mmg.value[1]);
    assert EntryMatches(e);
    assert [e][..0] == [];
    assert CountMatches([e]) == 1;
    assert [e, e][..1] == [e];
  }
}
