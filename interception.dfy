/** The event filter of `handleEvent` (src/Scope.js:241-293) as a decision
    on an abstract event, the confirmation gate in front of the load, and the
    one-slot state machine behind `debounce` (src/Scope.js:78-87). */
module Interception {
  import opened Text
  import opened Attributes

  /** An event reaching a scope's listener: its type, its target, the
      identity of the target's nearest `sco-pe` ancestor, and what
      `target.closest("a,button,[data-scope-action]")` finds. */
  datatype Event = Event(kind: string, target: Element, nearestScope: nat, closestTrigger: Option<Element>)

  /** A click loads at once; every other watched type goes through the
      debounced function. */
  datatype Mode = Immediate | Debounced

  /** `Handle` means `preventDefault()` is called and a load is started
      (behind the confirmation prompt when `confirm` is set). */
  datatype Decision = Ignore | Handle(trigger: Element, mode: Mode, confirm: Option<string>)

  /** The trigger: the target itself for "submit", else the closest link,
      button or `data-scope-action` element. */
  function TriggerOf(ev: Event): Option<Element> {
    if ev.kind == "submit" then Some(ev.target) else ev.closestTrigger
  }

  /** The action passes the filter: non-empty, same origin (`isExternal` is
      the browser's origin comparison, supplied by the caller) and without
      a '#' fragment. */
  predicate ActionAccepted(action: Option<string>, isExternal: string -> bool) {
    Truthy(action) && !isExternal(action.value) && !IsAnchorURL(action.value)
  }

  /** `handleEvent` on the scope with identity `self` and root element
      `scope`. */
  function HandleEvent(self: nat, scope: Element, ev: Event, isExternal: string -> bool): (d: Decision)
    ensures d.Handle? <==>
              && ev.nearestScope == self
              && !ParseBool(AsValue(Attr(scope, "data-disabled")))
              && TriggerOf(ev).Some?
              && ev.kind in GetEvents(TriggerOf(ev).value)
              && ActionAccepted(GetAction(TriggerOf(ev).value), isExternal)
    ensures d.Handle? ==> d.trigger == TriggerOf(ev).value
    ensures d.Handle? ==> (d.mode == Immediate <==> ev.kind == "click")
    ensures d.Handle? ==>
              (d.confirm.Some? <==> Truthy(Attr(d.trigger, "data-scope-confirm"))) &&
              (d.confirm.Some? ==> d.confirm == Attr(d.trigger, "data-scope-confirm"))
  {
    if ev.nearestScope != self then Ignore
    else if ParseBool(AsValue(Attr(scope, "data-disabled"))) then Ignore
    else match TriggerOf(ev)
      case None => Ignore
      case Some(trigger) =>
        if ev.kind !in GetEvents(trigger) then Ignore
        else if !ActionAccepted(GetAction(trigger), isExternal) then Ignore
        else
          var mode := if ev.kind == "click" then Immediate else Debounced;
          var confirm := if Truthy(Attr(trigger, "data-scope-confirm")) then Attr(trigger, "data-scope-confirm") else None;
          Handle(trigger, mode, confirm)
  }

  /** `preventDefault()` is called exactly for handled events. */
  predicate PreventsDefault(d: Decision) {
    d.Handle?
  }

  /** Events owned by a nested scope, and all events of a disabled scope
      ("1" or "true" in `data-disabled`), are left alone. */
  lemma ForeignOrDisabledIgnored(self: nat, scope: Element, ev: Event, isExternal: string -> bool)
    requires ev.nearestScope != self || Attr(scope, "data-disabled") in {Some("1"), Some("true")}
    ensures !PreventsDefault(HandleEvent(self, scope, ev, isExternal))
  {
  }

  /** Links to another document's fragment, or to the same page's anchor,
      and external links are left to the browser. */
  lemma AnchorActionsIgnored(self: nat, scope: Element, ev: Event, isExternal: string -> bool)
    requires TriggerOf(ev).Some? && Truthy(GetAction(TriggerOf(ev).value))
    requires '#' in GetAction(TriggerOf(ev).value).value || isExternal(GetAction(TriggerOf(ev).value).value)
    ensures HandleEvent(self, scope, ev, isExternal) == Ignore
  {
  }

  /** A form trigger reacts to "submit" only, and through the debounced
      path. */
  lemma FormsHandleOnlySubmit(self: nat, scope: Element, ev: Event, isExternal: string -> bool)
    requires TriggerOf(ev).Some? && TriggerOf(ev).value.name == "FORM"
    ensures HandleEvent(self, scope, ev, isExternal).Handle? ==>
              ev.kind == "submit" && HandleEvent(self, scope, ev, isExternal).mode == Debounced
  {
  }

  /** Without `data-scope-on`, a link, button or action element reacts to
      clicks only, and loads at once. */
  lemma DefaultTriggersHandleOnlyClick(self: nat, scope: Element, ev: Event, isExternal: string -> bool)
    requires ev.kind != "submit" && ev.closestTrigger.Some?
    requires ev.closestTrigger.value.name != "FORM" && !Truthy(Attr(ev.closestTrigger.value, "data-scope-on"))
    ensures HandleEvent(self, scope, ev, isExternal).Handle? ==>
              ev.kind == "click" && HandleEvent(self, scope, ev, isExternal).mode == Immediate
  {
  }

  /** After the confirmation step: the trigger and mode of the load that
      runs, if any. A rejected or dismissed prompt is swallowed. */
  function Proceed(d: Decision, accepted: bool): (run: Option<(Element, Mode)>)
    ensures run.Some? <==> d.Handle? && (d.confirm.None? || accepted)
    ensures run.Some? ==> run.value == (d.trigger, d.mode)
  {
    if d.Handle? && (d.confirm.None? || accepted) then Some((d.trigger, d.mode)) else None
  }

  /** A prompt the user declines starts no load, although the event's
      default action was already prevented. */
  lemma DeclinedConfirmationLoadsNothing(self: nat, scope: Element, ev: Event, isExternal: string -> bool)
    ensures var d := HandleEvent(self, scope, ev, isExternal);
            d.Handle? && d.confirm.Some? ==> PreventsDefault(d) && Proceed(d, false).None?
  {
  }

  /** `debounce`: one pending slot. Every call overwrites the pending
      arguments; when the timer fires, only the last ones run. */
  class Debouncer<T> {
    var pending: Option<T>

    constructor ()
      ensures pending == None
    {
      pending := None;
    }

    /** A call to the debounced function: `clearTimeout` drops what was
        pending and `setTimeout` schedules these arguments. */
    method Call(args: T)
      modifies this
      ensures pending == Some(args)
    {
      pending := Some(args);
    }

    /** The timer expires: the pending arguments, if any, are run once. */
    method Fire() returns (run: Option<T>)
      modifies this
      ensures run == old(pending) && pending == None
    {
      run := pending;
      pending := None;
    }
  }

  /** A burst of calls within one window, then the timer firing twice:
      only the last arguments run, once; with no call nothing runs. */
  method Burst<T>(args: seq<T>) returns (runs: seq<T>)
    ensures runs == if args == [] then [] else [args[|args| - 1]]
  {
    var d := new Debouncer<T>();
    var i := 0;
    while i < |args|
      invariant 0 <= i <= |args|
      invariant d.pending == if i == 0 then None else Some(args[i - 1])
    {
      d.Call(args[i]);
      i := i + 1;
    }
    var r := d.Fire();
    var again := d.Fire();
    runs := [];
    match r {
      case Some(x) => runs := runs + [x];
      case None =>
    }
    match again {
      case Some(x) => runs := runs + [x];
      case None =>
    }
  }
}
