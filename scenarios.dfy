/**
 * Whole-lifecycle runs of slots on one page: a fresh counter and trace,
 * slots mounted and events delivered in a fixed order, and what the
 * contracts of `AdSlot` let a caller conclude about them.
 */
module Scenarios {
  import opened SlotIds
  import opened AdSlots

  /** A new slot, mounted on the page: how it is named, and nothing about what it called. */
  method MountNew(props: Record, counter: SlotCounter, trace: Trace) returns (slot: AdSlot)
    requires !Truthy(Get(props, "slotId"))
    modifies counter, trace
    ensures fresh(slot) && slot.props == WithDefaults(props) && slot.counter == counter && slot.trace == trace
    ensures slot.GetSlotId() == Str(SlotIdName(old(counter.count))) && counter.count == old(counter.count) + 1
  {
    slot := new AdSlot(props, map[], counter, trace);
    slot.ComponentDidMount();
  }

  /** Two slots without a `slotId` prop, mounted in order, are named `adSlot-0` and `adSlot-1`. */
  method TwoDynamicSlots() returns (first: Value, second: Value)
    ensures first == Str("adSlot-0") && second == Str("adSlot-1")
  {
    var counter := new SlotCounter();
    var trace := new Trace();
    var a := MountNew(map[], counter, trace);
    var b := MountNew(map[], counter, trace);
    first, second := a.GetSlotId(), b.GetSlotId();
    FirstNames();
  }

  /**
   * A slot mounted with `{fetchNow: true, slotId: "s1"}` registers under
   * `s1`, loads `s1`, attaches its three handlers and then reports to
   * `onSlotRegister` with the counter still at 0.
   */
  method FetchNowWithExplicitId(sizes: Value) returns (calls: seq<Call>, slot: AdSlot)
    ensures calls == [Register(slot.RegisterRecord()), Load(Str("s1")),
                      Attach(RenderEnded, slot), Attach(IsViewable, slot), Attach(VisibilityChanged, slot),
                      Invoke(Func(1), map["slotId" := Str("s1"), "sizes" := sizes, "slotCount" := Num(0),
                                          "adElementRef" := ElementRef(slot)])]
    ensures Get(slot.RegisterRecord(), "slotId") == Str("s1")
  {
    var counter := new SlotCounter();
    var trace := new Trace();
    slot := new AdSlot(FetchNowProps(sizes), map[], counter, trace);
    assert slot.state.slotId == Str("s1") && slot.props == FetchNowProps(sizes);
    slot.ComponentDidMount();
    calls := trace.calls;
    FetchNowRegistration(slot, sizes);
    SixCalls(calls, [Register(slot.RegisterRecord())], slot.FetchCalls(), slot.Attachments(), slot.RegisterCallbackCalls());
  }

  function FetchNowProps(sizes: Value): Record
  {
    map["fetchNow" := Bool(true), "slotId" := Str("s1"), "sizes" := sizes, "onSlotRegister" := Func(1)]
  }

  /** What a slot with the props above contributes to its registration, whatever the heap. */
  lemma FetchNowRegistration(slot: AdSlot, sizes: Value)
    requires slot.props == FetchNowProps(sizes) && slot.context == map[]
    requires slot.state.slotId == Str("s1") && slot.counter.count == 0
    ensures slot.AnnouncementCalls() == [] && slot.FetchCalls() == [Load(Str("s1"))]
    ensures slot.RegisterCallbackCalls() == [Invoke(Func(1), map["slotId" := Str("s1"), "sizes" := sizes,
                                                                  "slotCount" := Num(0), "adElementRef" := ElementRef(slot)])]
    ensures Get(slot.RegisterRecord(), "slotId") == Str("s1")
  {
    FetchNowPropsRead(slot, sizes);
    slot.RegisterExtendsUnregister();
    slot.UnregisterRecordLayers();
  }

  lemma FetchNowPropsRead(slot: AdSlot, sizes: Value)
    requires slot.props == FetchNowProps(sizes) && slot.context == map[]
    requires slot.state.slotId == Str("s1")
    ensures slot.GetSlotId() == Str("s1") && slot.FetchNow() && !Truthy(Get(slot.context, "newSlotCallback"))
    ensures Get(slot.props, "onSlotRegister") == Func(1) && Get(slot.props, "sizes") == sizes
  {
  }

  lemma SixCalls<T>(calls: seq<T>, a: seq<T>, b: seq<T>, c: seq<T>, d: seq<T>)
    requires |a| == 1 && |b| == 1 && |c| == 3 && |d| == 1
    requires calls == [] + [] + (a + b + c + d)
    ensures calls == [a[0], b[0], c[0], c[1], c[2], d[0]]
  {
  }

  /**
   * A viewability event for `adSlot-0` reaches the owner of the slot named
   * `adSlot-0` and not the owner of the slot named `adSlot-1`.
   */
  method EventForFirstSlot() returns (toFirst: seq<Call>, toSecond: seq<Call>)
    ensures toFirst == [Invoke(Func(1), map["slotId" := Str("adSlot-0")])]
    ensures toSecond == []
  {
    var counter := new SlotCounter();
    var trace := new Trace();
    var a := MountNew(map["onSlotIsViewable" := Func(1)], counter, trace);
    var b := MountNew(map["onSlotIsViewable" := Func(2)], counter, trace);
    FirstNames();
    var event := map["slotId" := Str("adSlot-0")];
    toFirst := a.Notify(IsViewable, event);
    toSecond := b.Notify(IsViewable, event);
  }

  /** A `shouldRefresh` that answers `false` vetoes a refresh; without one a refresh is always allowed. */
  method RefreshVeto() returns (vetoed: bool, unconditional: bool)
    ensures !vetoed && unconditional
  {
    var counter := new SlotCounter();
    var trace := new Trace();
    var a := new AdSlot(map["shouldRefresh" := Func(1)], map[], counter, trace);
    var b := new AdSlot(map[], map[], counter, trace);
    vetoed := a.SlotShouldRefresh(config => false);
    unconditional := b.SlotShouldRefresh(config => false);
  }
}
