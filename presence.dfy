/** The availability switch of a session participant ("Available" / "Do not disturb").

    The component keeps a local `switchValue`, seeded from the store's
    `isAvailableForCall`. An effect copies the store value into `switchValue` whenever
    the two differ; a change of the switch sets `switchValue` and writes the new value
    for the current session. Editability is the participant's `canNetwork` flag.
    The store's selectors are inputs here, and the writes go to a log. */
module Presence {

  /** One call of `setUserAvailableForCall(sessionId, value)`. */
  datatype Write = Write(sessionId: string, value: bool)

  /** Everything the component sees or changes: the selector inputs (`sessionId`,
      the store's `isAvailableForCall` as `remote`, and `canNetwork`), its own
      `switchValue`, and the writes it has issued so far. */
  datatype SwitchState = SwitchState(
    sessionId: string,
    remote: bool,
    canNetwork: bool,
    switchValue: bool,
    writes: seq<Write>)

  const AvailableLabel: string := "Available"
  const BusyLabel: string := "Do not disturb"
  const AvailableTooltip: string := "Available to network"
  const NotAvailableTooltip: string := "Not available to network"
  const ConversationTooltip: string := "While in a conversation, you will not be interrupted"

  /** What the component renders: the switch position, whether it reacts to clicks,
      the label next to it and the tooltip over it. */
  datatype SwitchView = SwitchView(checked: bool, editable: bool, labelText: string, tooltip: string)

  /** The two branches of the rendered output, one for a participant who can network
      and one (disabled) for a participant in a conversation. The label follows
      `switchValue` alone, in both branches. */
  function Render(switchValue: bool, canNetwork: bool): (v: SwitchView)
    ensures v.checked == switchValue
    ensures v.editable == canNetwork
    ensures v.labelText == AvailableLabel <==> switchValue
    ensures v.labelText == BusyLabel <==> !switchValue
    ensures canNetwork ==> (v.tooltip == AvailableTooltip <==> switchValue)
    ensures canNetwork ==> (v.tooltip == NotAvailableTooltip <==> !switchValue)
    ensures !canNetwork ==> v.tooltip == ConversationTooltip
  {
    if canNetwork then
      SwitchView(switchValue, true,
           if switchValue then AvailableLabel else BusyLabel,
           if switchValue then AvailableTooltip else NotAvailableTooltip)
    else
      SwitchView(switchValue, false,
           if switchValue then AvailableLabel else BusyLabel,
           ConversationTooltip)
  }

  /** The label does not depend on which branch is rendered. */
  lemma LabelIgnoresGate(switchValue: bool)
    ensures Render(switchValue, true).labelText == Render(switchValue, false).labelText
  {
  }

  /** The component's state when it is first rendered. */
  function Initial(sessionId: string, isAvailableForCall: bool, canNetwork: bool): (s: SwitchState)
    ensures s.switchValue == s.remote == isAvailableForCall
    ensures s.sessionId == sessionId && s.canNetwork == canNetwork && s.writes == []
  {
    SwitchState(sessionId, isAvailableForCall, canNetwork, isAvailableForCall, [])
  }

  /** The effect: when the store value and `switchValue` differ, adopt the store value.
      Afterwards the two agree, nothing else has changed and no write is issued. */
  function SyncStep(s: SwitchState): (r: SwitchState)
    ensures r.switchValue == s.remote
    ensures r.sessionId == s.sessionId && r.remote == s.remote && r.canNetwork == s.canNetwork
    ensures r.writes == s.writes
    ensures s.switchValue == s.remote ==> r == s
  {
    if s.remote != s.switchValue then s.(switchValue := s.remote) else s
  }

  /** Running the effect a second time changes nothing. */
  lemma SyncIdempotent(s: SwitchState)
    ensures SyncStep(SyncStep(s)) == SyncStep(s)
  {
  }

  /** `handleChange`: show the new value and write it, once, for the current session. */
  function ChangeStep(s: SwitchState, v: bool): (r: SwitchState)
    ensures r.switchValue == v
    ensures r.writes == s.writes + [Write(s.sessionId, v)]
    ensures r.sessionId == s.sessionId && r.remote == s.remote && r.canNetwork == s.canNetwork
  {
    s.(switchValue := v, writes := s.writes + [Write(s.sessionId, v)])
  }

  /** A click on the switch. The disabled switch fires no change; the enabled one
      fires `handleChange` with the flipped position. */
  function ClickStep(s: SwitchState): (r: SwitchState)
    ensures !s.canNetwork ==> r == s
    ensures s.canNetwork ==> r.switchValue == !s.switchValue
    ensures s.canNetwork ==> r.writes == s.writes + [Write(s.sessionId, !s.switchValue)]
    ensures r.sessionId == s.sessionId && r.remote == s.remote && r.canNetwork == s.canNetwork
  {
    if Render(s.switchValue, s.canNetwork).editable then ChangeStep(s, !s.switchValue) else s
  }

  /** New selector values from the store (the session, the stored availability and
      the participant's conversation state); the component's own state is kept. */
  function StoreStep(s: SwitchState, sessionId: string, isAvailableForCall: bool, canNetwork: bool): (r: SwitchState)
    ensures r.sessionId == sessionId && r.remote == isAvailableForCall && r.canNetwork == canNetwork
    ensures r.switchValue == s.switchValue && r.writes == s.writes
  {
    s.(sessionId := sessionId, remote := isAvailableForCall, canNetwork := canNetwork)
  }

  /** A toggle followed by the effect, with the store unchanged: the display is back at
      the old store value, while the write of the toggled value stays in the log. */
  lemma ChangeThenSync(s: SwitchState, v: bool)
    ensures SyncStep(ChangeStep(s, v)).switchValue == s.remote
    ensures SyncStep(ChangeStep(s, v)).writes == s.writes + [Write(s.sessionId, v)]
  {
  }

  /** The events the component reacts to. */
  datatype Event =
    | StoreChanged(sessionId: string, isAvailableForCall: bool, canNetwork: bool)
    | Clicked

  /** One event, then the re-render it causes and the effect after it. (When neither
      `switchValue` nor the store value changed the effect does not run, which is the
      same thing, because the effect is then the identity.) */
  function Dispatch(s: SwitchState, e: Event): (r: SwitchState)
    ensures r.switchValue == r.remote
    ensures e.StoreChanged? ==>
      r.sessionId == e.sessionId && r.remote == e.isAvailableForCall && r.canNetwork == e.canNetwork
    ensures e.Clicked? ==>
      r.sessionId == s.sessionId && r.remote == s.remote && r.canNetwork == s.canNetwork
    ensures r.writes == s.writes + (if e.Clicked? && s.canNetwork then [Write(s.sessionId, !s.switchValue)] else [])
  {
    match e
    case StoreChanged(sessionId, isAvailableForCall, canNetwork) =>
      SyncStep(StoreStep(s, sessionId, isAvailableForCall, canNetwork))
    case Clicked =>
      SyncStep(ClickStep(s))
  }

  /** The state after a sequence of events, each followed by the effect. */
  function Run(s: SwitchState, events: seq<Event>): SwitchState
    decreases |events|
  {
    if events == [] then s else Run(Dispatch(s, events[0]), events[1..])
  }

  /** The number of clicks in a sequence of events. */
  function Clicks(events: seq<Event>): nat
  {
    if events == [] then 0 else (if events[0].Clicked? then 1 else 0) + Clicks(events[1..])
  }

  /** The store value after a sequence of events: the one the last store change
      reported, or `remote` when there was none. */
  function LastReported(remote: bool, events: seq<Event>): bool
    decreases |events|
  {
    if events == [] then remote
    else LastReported(if events[0].StoreChanged? then events[0].isAvailableForCall else remote, events[1..])
  }

  /** Once any event has been handled, the switch shows the store value, and that is
      the value the last store change reported (clicks do not change it). */
  lemma {:induction false} RunSettles(s: SwitchState, events: seq<Event>)
    requires events != []
    ensures Run(s, events).switchValue == Run(s, events).remote
    ensures Run(s, events).remote == LastReported(s.remote, events)
    decreases |events|
  {
    var t := Dispatch(s, events[0]);
    if events[1..] != [] {
      RunSettles(t, events[1..]);
    }
  }

  /** The write log only grows, by at most one write per click; without clicks no
      write is issued at all. */
  lemma {:induction false} RunWritesOnlyOnClick(s: SwitchState, events: seq<Event>)
    ensures |s.writes| <= |Run(s, events).writes| <= |s.writes| + Clicks(events)
    ensures Run(s, events).writes[..|s.writes|] == s.writes
    ensures Clicks(events) == 0 ==> Run(s, events).writes == s.writes
    decreases |events|
  {
    if events != [] {
      var t := Dispatch(s, events[0]);
      RunWritesOnlyOnClick(t, events[1..]);
      assert t.writes[..|s.writes|] == s.writes;
      assert Run(s, events).writes[..|s.writes|] == Run(s, events).writes[..|t.writes|][..|s.writes|];
    }
  }

  /** A participant who stays unable to network (in a conversation throughout) issues
      no write, whatever they click, and the switch ends at the last reported store
      value. */
  lemma {:induction false} GatedRunWritesNothing(s: SwitchState, events: seq<Event>)
    requires !s.canNetwork
    requires forall i :: 0 <= i < |events| && events[i].StoreChanged? ==> !events[i].canNetwork
    ensures Run(s, events).writes == s.writes
    ensures events != [] ==> Run(s, events).switchValue == LastReported(s.remote, events)
    decreases |events|
  {
    if events != [] {
      RunSettles(s, events);
      var t := Dispatch(s, events[0]);
      assert !t.canNetwork;
      GatedRunWritesNothing(t, events[1..]);
    }
  }

  /** A click in a settled state writes the flipped value, but the effect puts the
      display back at the store value until the store echoes the write; after the
      echo the switch shows the written value and nothing more is written. */
  lemma ClickRevertedUntilEcho(s: SwitchState)
    requires s.canNetwork && s.switchValue == s.remote
    ensures var t := Dispatch(s, Clicked);
      t.switchValue == s.remote && t.writes == s.writes + [Write(s.sessionId, !s.remote)]
    ensures var u := Run(s, [Clicked, StoreChanged(s.sessionId, !s.remote, true)]);
      u.switchValue == !s.remote && u.writes == s.writes + [Write(s.sessionId, !s.remote)]
  {
    var echo := StoreChanged(s.sessionId, !s.remote, true);
    var t := Dispatch(s, Clicked);
    assert [Clicked, echo][1..] == [echo];
    assert [echo][1..] == [];
    assert Run(s, [Clicked, echo]) == Run(t, [echo]) == Dispatch(t, echo);
  }

  /** The component as a stateful object: the selector inputs, the local
      `switchValue`, and a log of the writes it has issued. */
  class PresenceSwitch {
    var sessionId: string
    var remote: bool
    var canNetwork: bool
    var switchValue: bool
    ghost var writes: seq<Write>

    ghost function State(): SwitchState
      reads this
    {
      SwitchState(sessionId, remote, canNetwork, switchValue, writes)
    }

    /** First render: `switchValue` is seeded from the store and nothing is written. */
    constructor (sessionId: string, isAvailableForCall: bool, canNetwork: bool)
      ensures State() == Initial(sessionId, isAvailableForCall, canNetwork)
    {
      this.sessionId := sessionId;
      this.remote := isAvailableForCall;
      this.canNetwork := canNetwork;
      this.switchValue := isAvailableForCall;
      this.writes := [];
    }

    /** What the component renders in its current state. */
    function View(): SwitchView
      reads this
    {
      Render(switchValue, canNetwork)
    }

    /** The selectors deliver new values. */
    method StoreChanged(sessionId: string, isAvailableForCall: bool, canNetwork: bool)
      modifies this
      ensures State() == StoreStep(old(State()), sessionId, isAvailableForCall, canNetwork)
    {
      this.sessionId := sessionId;
      this.remote := isAvailableForCall;
      this.canNetwork := canNetwork;
    }

    /** The effect that copies the store value into `switchValue`. */
    method SyncEffect()
      modifies this
      ensures State() == SyncStep(old(State()))
      ensures switchValue == remote && writes == old(writes)
    {
      if remote != switchValue {
        switchValue := remote;
      }
    }

    /** `handleChange`: set `switchValue` and write the value for the current session. */
    method HandleChange(value: bool)
      modifies this
      ensures State() == ChangeStep(old(State()), value)
      ensures switchValue == value && writes == old(writes) + [Write(sessionId, value)]
    {
      switchValue := value;
      writes := writes + [Write(sessionId, value)];
    }

    /** A click: only the enabled switch calls `handleChange`, with the flipped position. */
    method Click()
      modifies this
      ensures State() == ClickStep(old(State()))
    {
      var view := View();
      if view.editable {
        HandleChange(!view.checked);
      }
    }
  }
}
