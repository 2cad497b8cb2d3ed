/**
 * The signal control panel: three colour buttons guarded by the panel's `isChanging` flag and
 * the signal it shows, and the status change they start.
 *
 * The change awaits a fixed delay before it reports back. The model splits it at that
 * suspension point: `PressButton` is everything up to the `await` (the button's `disabled`
 * guard, then `isChanging` set), `CompleteStatusChange` is what runs when the delay has
 * elapsed. The request it reports is the one captured when the button was pressed, as the
 * handler's closure captures `signal.id` and the new status.
 */
module SignalControl {
  import opened Util
  import opened Traffic
  import Seqs

  /** The `disabled` expression on the button for colour `target`. */
  predicate ButtonDisabled(isChanging: bool, signal: TrafficSignal, target: SignalStatus)
  {
    isChanging || signal.status == target || !signal.isActive
  }

  /** A button is enabled exactly when no change is in flight, it is not the current colour and the signal is active. */
  lemma ButtonEnabledIff(isChanging: bool, signal: TrafficSignal, target: SignalStatus)
    ensures !ButtonDisabled(isChanging, signal, target) <==> !isChanging && signal.status != target && signal.isActive
  {
  }

  /** The buttons in the order the panel lays them out. */
  const ButtonOrder: seq<SignalStatus> := [Red, Amber, Green]

  /**
   * The colours whose buttons can be clicked: none while a change is in flight or for an
   * inactive signal, otherwise exactly the two colours other than the current one.
   */
  function EnabledButtons(isChanging: bool, signal: TrafficSignal): (r: seq<SignalStatus>)
    ensures forall c :: c in r <==> !ButtonDisabled(isChanging, signal, c)
    ensures isChanging || !signal.isActive ==> r == []
    ensures !isChanging && signal.isActive ==> |r| == 2 && signal.status !in r
  {
    var keep := (c: SignalStatus) => !ButtonDisabled(isChanging, signal, c);
    assert forall c: SignalStatus :: c.Red? || c.Amber? || c.Green?;
    var r := Seqs.Filter(ButtonOrder, keep);
    assert r == Seqs.Filter([Red, Amber, Green], keep);
    assert [Red, Amber, Green][1..] == [Amber, Green] && [Amber, Green][1..] == [Green];
    r
  }

  const MutedText := "text-muted-foreground"

  /** `getStatusColor`: the badge classes of a status literal, muted for anything else. */
  function StatusColor(status: string): (c: string)
    ensures c == MutedText <==> status !in {"red", "amber", "green"}
  {
    if status == "red" then "text-red-400 border-red-500/30 bg-red-500/10"
    else if status == "amber" then "text-amber-400 border-amber-500/30 bg-amber-500/10"
    else if status == "green" then "text-green-400 border-green-500/30 bg-green-500/10"
    else MutedText
  }

  /** Every status gets its own class, and none of them falls through to the muted default. */
  lemma StatusColorsDistinct(a: SignalStatus, b: SignalStatus)
    ensures StatusColor(Red.Name()) == "text-red-400 border-red-500/30 bg-red-500/10"
    ensures StatusColor(Amber.Name()) == "text-amber-400 border-amber-500/30 bg-amber-500/10"
    ensures StatusColor(Green.Name()) == "text-green-400 border-green-500/30 bg-green-500/10"
    ensures StatusColor(a.Name()) != MutedText
    ensures a != b ==> StatusColor(a.Name()) != StatusColor(b.Name())
  {
  }

  /** What the panel reports through `onStatusChange`: the signal's id and the chosen colour. */
  datatype StatusRequest = StatusRequest(signalId: string, status: SignalStatus)

  class SignalControlPanel {
    /** The signal the panel is showing (its `signal` prop). */
    var signal: TrafficSignal
    var isChanging: bool
    /** The continuation waiting on the delay, if a change is in flight. */
    var pending: Option<StatusRequest>

    /** A change is in flight exactly when `isChanging` is set, and then there is one. */
    ghost predicate Valid()
      reads this
    {
      isChanging <==> pending.Some?
    }

    constructor (signal: TrafficSignal)
      ensures Valid()
      ensures this.signal == signal && !isChanging && pending == None
    {
      this.signal := signal;
      isChanging := false;
      pending := None;
    }

    /** The colours that can be clicked right now. */
    function Enabled(): (r: seq<SignalStatus>)
      reads this
      ensures forall c :: c in r <==> !ButtonDisabled(isChanging, signal, c)
    {
      EnabledButtons(isChanging, signal)
    }

    /**
     * A click on the button for `target`. A disabled button ignores it; otherwise the handler
     * sets `isChanging` and suspends, holding the request for the current signal.
     */
    method PressButton(target: SignalStatus) returns (started: bool)
      requires Valid()
      modifies this
      ensures Valid() && signal == old(signal)
      ensures started <==> !ButtonDisabled(old(isChanging), signal, target)
      ensures started ==> isChanging && pending == Some(StatusRequest(signal.id, target))
      ensures !started ==> isChanging == old(isChanging) && pending == old(pending)
    {
      started := !ButtonDisabled(isChanging, signal, target);
      if started {
        isChanging := true;
        pending := Some(StatusRequest(signal.id, target));
      }
    }

    /**
     * The delay has elapsed: the handler calls `onStatusChange` once, with the request captured
     * at the click, and clears `isChanging`. Nothing is left in flight, so it cannot report twice.
     */
    method CompleteStatusChange() returns (request: StatusRequest)
      requires Valid() && isChanging
      modifies this
      ensures Valid() && signal == old(signal)
      ensures Some(request) == old(pending)
      ensures !isChanging && pending == None
    {
      request := pending.value;
      isChanging := false;
      pending := None;
    }

    /** The parent re-renders the panel with a new `signal` prop; the panel's own state is kept. */
    method ReceiveSignal(s: TrafficSignal)
      requires Valid()
      modifies this`signal
      ensures Valid() && signal == s
    {
      signal := s;
    }
  }
}
