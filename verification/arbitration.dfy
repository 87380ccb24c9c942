/** Layout arbitration: the two layouts chosen at startup, the keyboard
    events, and the table that maps each event to the layout to select. */
module Arbitration {
  import opened Wrappers

  /** An opaque reference to an enabled keyboard input source. */
  type InputSource = nat

  /** Exit status the process uses when fewer than two input sources exist. */
  const TooFewLayoutsStatus: int := 1

  datatype Event = ExternalKeyboard(name: string) | InternalKeyboard

  /** The two layouts fixed for the lifetime of the process. */
  datatype Layouts = Layouts(internalLayout: InputSource, externalLayout: InputSource)

  /** Picks the layouts from the ordered list of enabled keyboard input
      sources: positions 0 and 1, or exit status 1 when there are fewer
      than two sources. */
  function GetLayouts(sources: seq<InputSource>): (r: Result<Layouts, int>)
    ensures r.Failure? <==> |sources| < 2
    ensures r.Failure? ==> r.error == TooFewLayoutsStatus
    ensures r.Success? ==> r.value.internalLayout == sources[0] && r.value.externalLayout == sources[1]
  {
    if |sources| < 2 then Failure(TooFewLayoutsStatus)
    else Success(Layouts(sources[0], sources[1]))
  }

  /** Only the first two sources matter: sources enumerated after them never
      change the choice. */
  lemma {:induction false} GetLayoutsIgnoresLaterSources(sources: seq<InputSource>, more: seq<InputSource>)
    requires |sources| >= 2
    ensures GetLayouts(sources + more) == GetLayouts(sources)
    ensures GetLayouts(sources[..2]) == GetLayouts(sources)
  {
    assert (sources + more)[0] == sources[0] && (sources + more)[1] == sources[1];
  }

  /** The layout an event selects. */
  function LayoutFor(layouts: Layouts, event: Event): (r: InputSource)
    ensures r == layouts.internalLayout || r == layouts.externalLayout
    ensures event.InternalKeyboard? ==> r == layouts.internalLayout
    ensures event.ExternalKeyboard? ==> r == layouts.externalLayout
  {
    match event
    case InternalKeyboard => layouts.internalLayout
    case ExternalKeyboard(_) => layouts.externalLayout
  }

  /** With two distinct layouts, the selected layout tells which kind of
      event caused it, and the external keyboard's name plays no part. */
  lemma LayoutForDistinguishesEvents(layouts: Layouts, event: Event, other: Event)
    requires layouts.internalLayout != layouts.externalLayout
    ensures LayoutFor(layouts, event) == layouts.externalLayout <==> event.ExternalKeyboard?
    ensures LayoutFor(layouts, event) == LayoutFor(layouts, other) <==>
            event.ExternalKeyboard? == other.ExternalKeyboard?
  {
  }

  /** The input-source service: every call to select appends the selected
      source to `log`, so the history of selections can be stated. */
  class Actuator {
    var log: seq<InputSource>

    constructor ()
      ensures log == []
    {
      log := [];
    }

    method Select(source: InputSource)
      modifies this
      ensures log == old(log) + [source]
    {
      log := log + [source];
    }
  }

  /** Reacts to a keyboard event by selecting exactly one layout. */
  method OnChange(layouts: Layouts, event: Event, actuator: Actuator)
    modifies actuator
    ensures |actuator.log| == |old(actuator.log)| + 1
    ensures actuator.log[..|old(actuator.log)|] == old(actuator.log)
    ensures actuator.log[|old(actuator.log)|] == LayoutFor(layouts, event)
  {
    match event {
      case InternalKeyboard =>
        actuator.Select(layouts.internalLayout);
      case ExternalKeyboard(_) =>
        actuator.Select(layouts.externalLayout);
    }
  }
}
