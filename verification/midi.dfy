/**
 * The MIDI connection manager: access to the host's MIDI ports, the
 * selected input and output ports, the clock-in and note-in flags and the
 * preferences record they are saved to and restored from.
 *
 * The host's collaborators (the controls view, the preferences view, the
 * MIDI network and the transport) are unseen; every call made to them is
 * recorded, in order, as a `HostCall`.
 */
module Midi {
  import opened Common

  datatype MidiPort = MidiPort(id: string, name: string, manufacturer: string)

  /** The port maps of a `MIDIAccess` object, in iteration order. */
  datatype MidiAccess = MidiAccess(inputs: seq<MidiPort>, outputs: seq<MidiPort>)

  /** How the host answers a request for MIDI access. */
  datatype HostApi = ApiUnavailable | AccessGranted(access: MidiAccess) | AccessRejected

  /**
   * Where `requestAccess` ends: in the success callback, in the failure
   * callback with a message, or in an exception thrown inside the promise
   * handler, which reaches neither callback.
   */
  datatype AccessOutcome = Succeeded(access: MidiAccess) | Failed(message: string) | Threw

  /** A call made to one of the unseen collaborators. */
  datatype HostCall =
    | CreateMIDIPortView(isInput: bool, port: MidiPort)
    | SetSelectedMidiPort(id: string, isInput: bool)
    | ConnectAllEPGToInput(id: string, selectedID: string)
    | ConnectAllEPGToOutput(id: string, selectedID: string)
    | SetControlsEnabled(enabled: bool)
    | SetMidiClockInEnabled(enabled: bool)
    | SetExternalClockEnabled(enabled: bool, input: Option<MidiPort>)
    | SetMidiNoteInEnabled(enabled: bool)

  /** The preferences record of `getData` and `setData`. */
  datatype Preferences = Preferences(midiin: string, midiout: string, clockin: bool, notein: bool)

  const NoApiMessage: string := "Web MIDI API not available."
  const NoDevicesMessage: string := "No MIDI devices found on this system."
  const RejectedMessage: string := "RequestMIDIAccess failed. Error message: "

  // ---------------------------------------------------------------------------
  // Requesting access.

  /**
   * `requestAccess` as written: no API means failure, a grant with no
   * input and no output port means failure, any other grant means success,
   * and a rejected request runs a handler that reads an undeclared
   * variable and so throws before it reaches the failure callback.
   */
  function RequestAccess(host: HostApi): (r: AccessOutcome)
    ensures r.Succeeded? <==> host.AccessGranted? && (|host.access.inputs| > 0 || |host.access.outputs| > 0)
    ensures r.Succeeded? ==> r.access == host.access
    ensures r.Failed? <==> host.ApiUnavailable? || (host.AccessGranted? && host.access == MidiAccess([], []))
  {
    match host
    case ApiUnavailable => Failed(NoApiMessage)
    case AccessGranted(a) => if |a.inputs| == 0 && |a.outputs| == 0 then Failed(NoDevicesMessage) else Succeeded(a)
    case AccessRejected => Threw
  }

  /** A rejected request never reaches the failure callback. */
  lemma RejectionIsNotReported()
    ensures RequestAccess(AccessRejected) == Threw
    ensures forall host :: RequestAccess(host).Threw? <==> host == AccessRejected
  {
  }

  /** `requestAccess` as evidently intended: a rejection is reported through the failure callback. */
  function RequestAccessIntended(host: HostApi): (r: AccessOutcome)
    ensures !r.Threw?
    ensures host != AccessRejected ==> r == RequestAccess(host)
    ensures host == AccessRejected ==> r == Failed(RejectedMessage)
  {
    if host == AccessRejected then Failed(RejectedMessage) else RequestAccess(host)
  }

  // ---------------------------------------------------------------------------
  // Port lookup.

  /** Some port has identifier `id`. */
  predicate HasPort(ports: seq<MidiPort>, id: string) {
    exists i :: 0 <= i < |ports| && ports[i].id == id
  }

  /** The port a selection ends on: every matching port overwrites the previous one, so the last one wins. */
  function LastMatch(ports: seq<MidiPort>, id: string): (r: Option<MidiPort>)
    ensures r.Some? ==> r.value.id == id
  {
    if ports == [] then None
    else if ports[|ports| - 1].id == id then Some(ports[|ports| - 1])
    else LastMatch(ports[..|ports| - 1], id)
  }

  /**
   * A selection finds a port exactly when some port has the identifier,
   * and then it is the port of highest index with that identifier.
   */
  lemma {:induction false} LastMatchSpec(ports: seq<MidiPort>, id: string)
    ensures LastMatch(ports, id).Some? <==> HasPort(ports, id)
    ensures LastMatch(ports, id).Some? ==>
              exists i :: 0 <= i < |ports| && ports[i] == LastMatch(ports, id).value && ports[i].id == id
                          && forall j :: i < j < |ports| ==> ports[j].id != id
  {
    if ports != [] {
      var m := |ports| - 1;
      var front := ports[..m];
      if ports[m].id != id {
        LastMatchSpec(front, id);
        if HasPort(ports, id) {
          var i :| 0 <= i < |ports| && ports[i].id == id;
          assert front[i].id == id;
        }
        if HasPort(front, id) {
          var i :| 0 <= i < |front| && front[i].id == id;
          assert ports[i].id == id;
        }
        if LastMatch(front, id).Some? {
          var i :| 0 <= i < |front| && front[i] == LastMatch(front, id).value && front[i].id == id
                   && forall j :: i < j < |front| ==> front[j].id != id;
          assert ports[i] == front[i];
          forall j | i < j < |ports| ensures ports[j].id != id {
            if j < m {
              assert ports[j] == front[j];
            }
          }
        }
      }
    }
  }

  /** The identifier a preferences record reports for a selection: the port's id, or the empty string. */
  function ReportedId(selected: Option<MidiPort>): (id: string) {
    if selected.Some? then selected.value.id else ""
  }

  /** Selecting `id` and then reading the preferences gives `id` back exactly when `id` is empty or names a port. */
  lemma SelectionRoundTrip(ports: seq<MidiPort>, id: string)
    ensures ReportedId(LastMatch(ports, id)) == id <==> id == "" || HasPort(ports, id)
  {
    LastMatchSpec(ports, id);
  }

  /** What a selection tells the preferences view and the MIDI network about one matching port. */
  function SelectionCalls(id: string, isInput: bool): (calls: seq<HostCall>) {
    if isInput then [SetSelectedMidiPort(id, true), ConnectAllEPGToInput(id, id)]
    else [SetSelectedMidiPort(id, false), ConnectAllEPGToOutput(id, id)]
  }

  /** The calls a selection makes over all the ports: two per matching port, in port order. */
  function SelectCalls(ports: seq<MidiPort>, id: string, isInput: bool): (calls: seq<HostCall>) {
    if ports == [] then []
    else SelectCalls(ports[..|ports| - 1], id, isInput)
         + (if ports[|ports| - 1].id == id then SelectionCalls(id, isInput) else [])
  }

  /** A selection calls the collaborators exactly when some port matches. */
  lemma {:induction false} SelectCallsEmpty(ports: seq<MidiPort>, id: string, isInput: bool)
    ensures SelectCalls(ports, id, isInput) == [] <==> !HasPort(ports, id)
    ensures forall k :: 0 <= k < |SelectCalls(ports, id, isInput)| ==> !SelectCalls(ports, id, isInput)[k].SetExternalClockEnabled?
  {
    if ports != [] {
      var m := |ports| - 1;
      var front := ports[..m];
      SelectCallsEmpty(front, id, isInput);
      if HasPort(front, id) {
        var i :| 0 <= i < |front| && front[i].id == id;
        assert ports[i].id == id;
      }
      if HasPort(ports, id) && ports[m].id != id {
        var i :| 0 <= i < |ports| && ports[i].id == id;
        assert front[i].id == id;
      }
    }
  }

  /** One `CreateMIDIPortView` per port, in iteration order. */
  function PortViewCalls(ports: seq<MidiPort>, isInput: bool): (r: seq<HostCall>)
    ensures |r| == |ports|
    ensures forall k :: 0 <= k < |r| ==> r[k] == CreateMIDIPortView(isInput, ports[k])
  {
    if ports == [] then [] else PortViewCalls(ports[..|ports| - 1], isInput) + [CreateMIDIPortView(isInput, ports[|ports| - 1])]
  }

  // ---------------------------------------------------------------------------
  // Reselection after access is granted.

  /**
   * The reselection guards of `onAccessSuccess` as written: the input guard
   * tests that the input id is a string but takes the length of the output
   * id, which throws when the output id is still undefined. `None` is that
   * exception; otherwise the pair says whether the input and the output are
   * reselected.
   */
  function ReselectPlan(inputID: Option<string>, outputID: Option<string>): (r: Option<(bool, bool)>)
    ensures r.None? <==> inputID.Some? && outputID.None?
    ensures r.Some? ==> r.value.1 == ReselectPlanIntended(inputID, outputID).1
    ensures r.Some? && r.value.0 ==> inputID.Some? && r.value.1
  {
    if inputID.Some? && outputID.None? then None
    else Some((inputID.Some? && |outputID.value| > 0, outputID.Some? && |outputID.value| > 0))
  }

  /**
   * As written, a known input is not reselected when the output id is
   * empty, and the whole reselection throws when the output id is unknown.
   */
  lemma ReselectPlanDiscrepancy()
    ensures ReselectPlan(Some("in"), Some("")) == Some((false, false))
    ensures ReselectPlan(Some("in"), None) == None
    ensures ReselectPlanIntended(Some("in"), Some("")) == (true, false)
  {
  }

  /** The guards as evidently intended: each port is reselected when its own id is a non-empty string. */
  function ReselectPlanIntended(inputID: Option<string>, outputID: Option<string>): (r: (bool, bool)) {
    (inputID.Some? && |inputID.value| > 0, outputID.Some? && |outputID.value| > 0)
  }

  /**
   * The intended guards treat input and output alike and each depends on
   * its own id only. The written guards agree with them exactly when the
   * input id is unknown, or when both ids are known and are either both
   * empty or both non-empty.
   */
  lemma ReselectPlanIntendedSpec(inputID: Option<string>, outputID: Option<string>, other: Option<string>)
    ensures ReselectPlanIntended(inputID, outputID).0 == ReselectPlanIntended(other, inputID).1
    ensures ReselectPlanIntended(inputID, outputID).0 == ReselectPlanIntended(inputID, other).0
    ensures ReselectPlanIntended(inputID, outputID).1 == ReselectPlanIntended(other, outputID).1
    ensures ReselectPlan(inputID, outputID) == Some(ReselectPlanIntended(inputID, outputID)) <==>
              inputID.None? || (outputID.Some? && (|inputID.value| > 0 <==> |outputID.value| > 0))
  {
  }

  /** No call in `calls` asks the transport to follow an external clock without an input port. */
  ghost predicate ExternalClockSafe(calls: seq<HostCall>) {
    forall k :: 0 <= k < |calls| && calls[k].SetExternalClockEnabled? && calls[k].enabled ==> calls[k].input.Some?
  }

  lemma ExternalClockSafeAppend(a: seq<HostCall>, b: seq<HostCall>)
    requires ExternalClockSafe(a) && ExternalClockSafe(b)
    ensures ExternalClockSafe(a + b)
  {
    forall k | 0 <= k < |a + b| && (a + b)[k].SetExternalClockEnabled? && (a + b)[k].enabled
      ensures (a + b)[k].input.Some?
    {
      if k >= |a| {
        assert (a + b)[k] == b[k - |a|];
      }
    }
  }

  class MidiController {
    var midiAccess: Option<MidiAccess>
    /** The input and output port models, in creation order. */
    var inputs: seq<MidiPort>
    var outputs: seq<MidiPort>
    var selectedInput: Option<MidiPort>
    var selectedInputID: Option<string>
    var selectedOutput: Option<MidiPort>
    var selectedOutputID: Option<string>
    var isClockInEnabled: bool
    var isNoteInEnabled: bool
    /** Calls made to the controls view, the preferences view, the MIDI network and the transport. */
    var calls: seq<HostCall>

    /**
     * A selected port carries the selected id, exists only once access was
     * granted, and the transport was never asked to follow an external
     * clock without an input port.
     */
    ghost predicate Valid()
      reads this
    {
      && (selectedInput.Some? ==> midiAccess.Some? && selectedInputID == Some(selectedInput.value.id))
      && (selectedOutput.Some? ==> midiAccess.Some? && selectedOutputID == Some(selectedOutput.value.id))
      && ExternalClockSafe(calls)
    }

    constructor ()
      ensures Valid()
      ensures midiAccess == None && inputs == [] && outputs == []
      ensures selectedInput == None && selectedInputID == None && selectedOutput == None && selectedOutputID == None
      ensures !isClockInEnabled && !isNoteInEnabled && calls == []
    {
      midiAccess := None;
      inputs, outputs := [], [];
      selectedInput, selectedInputID := None, None;
      selectedOutput, selectedOutputID := None, None;
      isClockInEnabled, isNoteInEnabled := false, false;
      calls := [];
    }

    /**
     * The loop of a selection: walk the ports, keeping the last one whose
     * id matches and telling the collaborators about every match.
     */
    static method ScanPorts(ports: seq<MidiPort>, id: string, isInput: bool) returns (selected: Option<MidiPort>, told: seq<HostCall>)
      ensures selected == LastMatch(ports, id)
      ensures told == SelectCalls(ports, id, isInput)
    {
      selected, told := None, [];
      for i := 0 to |ports|
        invariant selected == LastMatch(ports[..i], id)
        invariant told == SelectCalls(ports[..i], id, isInput)
      {
        assert ports[..i + 1][..i] == ports[..i];
        if ports[i].id == id {
          selected := Some(ports[i]);
          told := told + SelectionCalls(id, isInput);
        }
      }
      assert ports[..|ports|] == ports;
    }

    /** `selectInputByID`: always record the id; with access, select the last input port of that id, or none. */
    method SelectInputByID(id: string)
      requires Valid()
      modifies this`selectedInputID, this`selectedInput, this`calls
      ensures Valid()
      ensures selectedInputID == Some(id)
      ensures midiAccess.None? ==> selectedInput == old(selectedInput) && calls == old(calls)
      ensures midiAccess.Some? ==> selectedInput == LastMatch(midiAccess.value.inputs, id)
                                   && calls == old(calls) + SelectCalls(midiAccess.value.inputs, id, true)
    {
      selectedInputID := Some(id);
      if midiAccess.Some? {
        var told;
        selectedInput, told := ScanPorts(midiAccess.value.inputs, id, true);
        LastMatchSpec(midiAccess.value.inputs, id);
        SelectCallsEmpty(midiAccess.value.inputs, id, true);
        ExternalClockSafeAppend(calls, told);
        calls := calls + told;
      }
    }

    /** `selectOutputByID`: the same for the output ports. */
    method SelectOutputByID(id: string)
      requires Valid()
      modifies this`selectedOutputID, this`selectedOutput, this`calls
      ensures Valid()
      ensures selectedOutputID == Some(id)
      ensures midiAccess.None? ==> selectedOutput == old(selectedOutput) && calls == old(calls)
      ensures midiAccess.Some? ==> selectedOutput == LastMatch(midiAccess.value.outputs, id)
                                   && calls == old(calls) + SelectCalls(midiAccess.value.outputs, id, false)
    {
      selectedOutputID := Some(id);
      if midiAccess.Some? {
        var told;
        selectedOutput, told := ScanPorts(midiAccess.value.outputs, id, false);
        LastMatchSpec(midiAccess.value.outputs, id);
        SelectCallsEmpty(midiAccess.value.outputs, id, false);
        ExternalClockSafeAppend(calls, told);
        calls := calls + told;
      }
    }

    /**
     * `setClockInEnabled`: store the flag, tell the controls and the
     * preferences view, and tell the transport only when turning the
     * external clock off or when an input port is selected.
     */
    method SetClockInEnabled(isEnabled: bool)
      requires Valid()
      modifies this`isClockInEnabled, this`calls
      ensures Valid()
      ensures isClockInEnabled == isEnabled
      ensures calls == old(calls) + [SetControlsEnabled(!isEnabled), SetMidiClockInEnabled(isEnabled)]
                       + (if !isEnabled || selectedInput.Some? then [SetExternalClockEnabled(isEnabled, selectedInput)] else [])
    {
      isClockInEnabled := isEnabled;
      var told := [SetControlsEnabled(!isClockInEnabled), SetMidiClockInEnabled(isClockInEnabled)];
      if (isClockInEnabled && selectedInput.Some?) || !isClockInEnabled {
        told := told + [SetExternalClockEnabled(isClockInEnabled, selectedInput)];
      }
      ExternalClockSafeAppend(calls, told);
      calls := calls + told;
    }

    /** `setNoteInEnabled`: store the flag and tell the preferences view. */
    method SetNoteInEnabled(isEnabled: bool)
      requires Valid()
      modifies this`isNoteInEnabled, this`calls
      ensures Valid()
      ensures isNoteInEnabled == isEnabled
      ensures calls == old(calls) + [SetMidiNoteInEnabled(isEnabled)]
    {
      isNoteInEnabled := isEnabled;
      ExternalClockSafeAppend(calls, [SetMidiNoteInEnabled(isEnabled)]);
      calls := calls + [SetMidiNoteInEnabled(isEnabled)];
    }

    /**
     * `setData`: input selection, output selection, clock-in, note-in, in
     * that order. With access granted and ids that are empty or name a
     * port, reading the preferences back gives the same record.
     */
    method SetData(data: Preferences)
      requires Valid()
      modifies this`selectedInputID, this`selectedInput, this`selectedOutputID, this`selectedOutput,
               this`isClockInEnabled, this`isNoteInEnabled, this`calls
      ensures Valid()
      ensures selectedInputID == Some(data.midiin) && selectedOutputID == Some(data.midiout)
      ensures isClockInEnabled == data.clockin && isNoteInEnabled == data.notein
      ensures midiAccess.Some? ==>
                selectedInput == LastMatch(midiAccess.value.inputs, data.midiin)
                && selectedOutput == LastMatch(midiAccess.value.outputs, data.midiout)
      ensures calls == old(calls)
                       + (if midiAccess.Some? then SelectCalls(midiAccess.value.inputs, data.midiin, true) else [])
                       + (if midiAccess.Some? then SelectCalls(midiAccess.value.outputs, data.midiout, false) else [])
                       + [SetControlsEnabled(!data.clockin), SetMidiClockInEnabled(data.clockin)]
                       + (if !data.clockin || selectedInput.Some? then [SetExternalClockEnabled(data.clockin, selectedInput)] else [])
                       + [SetMidiNoteInEnabled(data.notein)]
      ensures midiAccess.None? ==> selectedInput == old(selectedInput) && selectedOutput == old(selectedOutput)
      ensures (&& midiAccess.Some?
               && (data.midiin == "" || HasPort(midiAccess.value.inputs, data.midiin))
               && (data.midiout == "" || HasPort(midiAccess.value.outputs, data.midiout)))
              ==> GetData() == data
    {
      SelectInputByID(data.midiin);
      SelectOutputByID(data.midiout);
      SetClockInEnabled(data.clockin);
      SetNoteInEnabled(data.notein);
      if midiAccess.Some? {
        SelectionRoundTrip(midiAccess.value.inputs, data.midiin);
        SelectionRoundTrip(midiAccess.value.outputs, data.midiout);
      }
    }

    /** `getData`: the selected ports' ids (empty when none) and the two flags. */
    function GetData(): (r: Preferences)
      reads this
      ensures Valid() && selectedInput.Some? ==> selectedInputID == Some(r.midiin)
      ensures Valid() && selectedOutput.Some? ==> selectedOutputID == Some(r.midiout)
      ensures r.midiin != "" ==> selectedInput.Some?
      ensures r.midiout != "" ==> selectedOutput.Some?
    {
      Preferences(ReportedId(selectedInput), ReportedId(selectedOutput), isClockInEnabled, isNoteInEnabled)
    }

    /**
     * `onAccessSuccess`: keep the access object, create a model and a
     * preferences view for every input port and then every output port,
     * then reselect the ports whose ids were already known, with the
     * guards as written. `ok` is false when the input guard threw; the
     * output is then not reselected either.
     */
    method OnAccessSuccess(access: MidiAccess) returns (ok: bool)
      requires Valid()
      modifies this
      ensures Valid()
      ensures midiAccess == Some(access)
      ensures inputs == old(inputs) + access.inputs && outputs == old(outputs) + access.outputs
      ensures selectedInputID == old(selectedInputID) && selectedOutputID == old(selectedOutputID)
      ensures isClockInEnabled == old(isClockInEnabled) && isNoteInEnabled == old(isNoteInEnabled)
      ensures ok == ReselectPlan(old(selectedInputID), old(selectedOutputID)).Some?
      ensures var plan := ReselectPlan(old(selectedInputID), old(selectedOutputID));
              var reIn := plan.Some? && plan.value.0;
              var reOut := plan.Some? && plan.value.1;
              && selectedInput == (if reIn then LastMatch(access.inputs, old(selectedInputID).value) else old(selectedInput))
              && selectedOutput == (if reOut then LastMatch(access.outputs, old(selectedOutputID).value) else old(selectedOutput))
              && calls == old(calls) + PortViewCalls(access.inputs, true) + PortViewCalls(access.outputs, false)
                          + (if reIn then SelectCalls(access.inputs, old(selectedInputID).value, true) else [])
                          + (if reOut then SelectCalls(access.outputs, old(selectedOutputID).value, false) else [])
    {
      midiAccess := Some(access);
      CreateInputs(access.inputs);
      CreateOutputs(access.outputs);
      ok := Reselect();
    }

    /**
     * The end of `onAccessSuccess`: select an input and an output again if
     * their ids are already known, with the guards as written.
     */
    method Reselect() returns (ok: bool)
      requires Valid() && midiAccess.Some?
      modifies this`selectedInputID, this`selectedInput, this`selectedOutputID, this`selectedOutput, this`calls
      ensures Valid()
      ensures selectedInputID == old(selectedInputID) && selectedOutputID == old(selectedOutputID)
      ensures ok == ReselectPlan(old(selectedInputID), old(selectedOutputID)).Some?
      ensures var plan := ReselectPlan(old(selectedInputID), old(selectedOutputID));
              var reIn := plan.Some? && plan.value.0;
              var reOut := plan.Some? && plan.value.1;
              && selectedInput == (if reIn then LastMatch(midiAccess.value.inputs, old(selectedInputID).value) else old(selectedInput))
              && selectedOutput == (if reOut then LastMatch(midiAccess.value.outputs, old(selectedOutputID).value) else old(selectedOutput))
              && calls == old(calls)
                          + (if reIn then SelectCalls(midiAccess.value.inputs, old(selectedInputID).value, true) else [])
                          + (if reOut then SelectCalls(midiAccess.value.outputs, old(selectedOutputID).value, false) else [])
    {
      var plan := ReselectPlan(selectedInputID, selectedOutputID);
      if plan.None? {
        return false;
      }
      if plan.value.0 {
        SelectInputByID(selectedInputID.value);
      }
      if plan.value.1 {
        SelectOutputByID(selectedOutputID.value);
      }
      return true;
    }

    /** The input loop of `onAccessSuccess`: `createInput` for every port, in iteration order. */
    method CreateInputs(ports: seq<MidiPort>)
      requires Valid()
      modifies this`inputs, this`calls
      ensures Valid()
      ensures inputs == old(inputs) + ports
      ensures calls == old(calls) + PortViewCalls(ports, true)
    {
      for i := 0 to |ports|
        invariant Valid()
        invariant inputs == old(inputs) + ports[..i]
        invariant calls == old(calls) + PortViewCalls(ports[..i], true)
      {
        CreateInput(ports[i]);
        assert ports[..i + 1] == ports[..i] + [ports[i]];
        assert ports[..i + 1][..i] == ports[..i];
      }
      assert ports[..|ports|] == ports;
    }

    /** The output loop of `onAccessSuccess`: `createOutput` for every port, in iteration order. */
    method CreateOutputs(ports: seq<MidiPort>)
      requires Valid()
      modifies this`outputs, this`calls
      ensures Valid()
      ensures outputs == old(outputs) + ports
      ensures calls == old(calls) + PortViewCalls(ports, false)
    {
      for i := 0 to |ports|
        invariant Valid()
        invariant outputs == old(outputs) + ports[..i]
        invariant calls == old(calls) + PortViewCalls(ports[..i], false)
      {
        CreateOutput(ports[i]);
        assert ports[..i + 1] == ports[..i] + [ports[i]];
        assert ports[..i + 1][..i] == ports[..i];
      }
      assert ports[..|ports|] == ports;
    }

    /** `createInput`: a model and a preferences view for one input port. */
    method CreateInput(port: MidiPort)
      requires Valid()
      modifies this`inputs, this`calls
      ensures Valid()
      ensures inputs == old(inputs) + [port]
      ensures calls == old(calls) + [CreateMIDIPortView(true, port)]
    {
      ExternalClockSafeAppend(calls, [CreateMIDIPortView(true, port)]);
      calls := calls + [CreateMIDIPortView(true, port)];
      inputs := inputs + [port];
    }

    /** `createOutput`: a model and a preferences view for one output port. */
    method CreateOutput(port: MidiPort)
      requires Valid()
      modifies this`outputs, this`calls
      ensures Valid()
      ensures outputs == old(outputs) + [port]
      ensures calls == old(calls) + [CreateMIDIPortView(false, port)]
    {
      ExternalClockSafeAppend(calls, [CreateMIDIPortView(false, port)]);
      calls := calls + [CreateMIDIPortView(false, port)];
      outputs := outputs + [port];
    }

    /**
     * `setup`: request access and run the success handler when it is
     * granted with at least one port. `outcome` says which way the request
     * went; the failure handler only logs.
     */
    method Setup(host: HostApi) returns (outcome: AccessOutcome, ok: bool)
      requires Valid()
      modifies this
      ensures Valid()
      ensures outcome == RequestAccess(host)
      ensures !outcome.Succeeded? ==> ok && unchanged(this)
      ensures outcome.Succeeded? ==>
                && midiAccess == Some(host.access)
                && inputs == old(inputs) + host.access.inputs && outputs == old(outputs) + host.access.outputs
                && selectedInputID == old(selectedInputID) && selectedOutputID == old(selectedOutputID)
                && isClockInEnabled == old(isClockInEnabled) && isNoteInEnabled == old(isNoteInEnabled)
                && ok == ReselectPlan(old(selectedInputID), old(selectedOutputID)).Some?
      ensures outcome.Succeeded? ==>
                var plan := ReselectPlan(old(selectedInputID), old(selectedOutputID));
                var reIn := plan.Some? && plan.value.0;
                var reOut := plan.Some? && plan.value.1;
                && selectedInput == (if reIn then LastMatch(host.access.inputs, old(selectedInputID).value) else old(selectedInput))
                && selectedOutput == (if reOut then LastMatch(host.access.outputs, old(selectedOutputID).value) else old(selectedOutput))
                && calls == old(calls) + PortViewCalls(host.access.inputs, true) + PortViewCalls(host.access.outputs, false)
                            + (if reIn then SelectCalls(host.access.inputs, old(selectedInputID).value, true) else [])
                            + (if reOut then SelectCalls(host.access.outputs, old(selectedOutputID).value, false) else [])
    {
      outcome := RequestAccess(host);
      ok := true;
      if outcome.Succeeded? {
        ok := OnAccessSuccess(outcome.access);
      }
    }
  }
}
