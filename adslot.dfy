/**
 * One advertising slot (`AdSlot`): how it resolves its identity, derives
 * the configuration it hands to the page-wide coordinator (`DFPManager`),
 * registers and unregisters, and which coordinator broadcasts it forwards
 * to its owner.
 *
 * The coordinator and the owner's callbacks are not modelled beyond an
 * append-only `Trace` of the calls the slot makes to them.
 */
module AdSlots {
  import opened SlotIds
  import ClassNames

  /** The JavaScript values that flow through props, context, records and events. */
  datatype Value =
    | Undefined
    | Null
    | Bool(b: bool)
    | Num(n: int)
    | Str(s: string)
    | Arr(items: seq<Value>)
    | Obj(fields: map<string, Value>)
    | Func(id: nat)                 // a function supplied by the owner, known by its identity
    | RefreshAdapter(slot: AdSlot)  // the bound method `slotShouldRefresh` of a slot
    | ElementRef(slot: AdSlot)      // the ref object `adElementRef` of a slot

  /** A plain JavaScript object: props, context, a registration record, an event. */
  type Record = map<string, Value>

  /** `r.key`: a missing key reads as `undefined`. */
  function Get(r: Record, key: string): (v: Value)
    ensures key !in r ==> v == Undefined
    ensures key in r ==> v == r[key]
  {
    if key in r then r[key] else Undefined
  }

  /** JavaScript truthiness, for `||`. */
  predicate Truthy(v: Value)
    ensures !Truthy(v) <==> v in {Undefined, Null, Bool(false), Num(0), Str("")}
  {
    match v
    case Undefined => false
    case Null => false
    case Bool(b) => b
    case Num(n) => n != 0
    case Str(s) => s != ""
    case _ => true
  }

  /** `typeof v === 'function'`. */
  predicate IsFunction(v: Value)
    ensures IsFunction(v) ==> Truthy(v) && v != Undefined
  {
    v.Func? || v.RefreshAdapter?
  }

  /** The three coordinator broadcast channels a slot listens to. */
  datatype Channel = RenderEnded | IsViewable | VisibilityChanged

  /** One observable call made by a slot. */
  datatype Call =
    | NewSlotCallback(callback: Value)            // context.newSlotCallback()
    | Register(config: Record)                    // DFPManager.registerSlot(config)
    | Load(slotId: Value)                         // DFPManager.load(slotId)
    | Attach(channel: Channel, handler: AdSlot)   // DFPManager.attach<Channel>(slot's handler)
    | Detach(channel: Channel, handler: AdSlot)   // DFPManager.detach<Channel>(slot's handler)
    | Unregister(config: Record)                  // DFPManager.unregisterSlot(config)
    | Invoke(callback: Value, argument: Record)   // an owner callback called with one object

  /** The page-wide record of calls into the coordinator and the owners' callbacks. */
  class Trace {
    var calls: seq<Call>

    constructor ()
      ensures calls == []
    {
      calls := [];
    }

    method Append(c: Call)
      modifies this
      ensures calls == old(calls) + [c]
    {
      calls := calls + [c];
    }
  }

  /** The component state `{slotId, className}`. */
  datatype SlotState = SlotState(slotId: Value, className: Value)

  /** The class every slot container carries last. */
  const BaseClass: string := "adunitContainer"

  /** The keys `mapContextToAdSlotProps` can produce. */
  const MappedKeys: set<string> := {"dfpNetworkId", "adUnit", "sizeMapping", "targetingArguments"}

  /** `m` with the context field `from` added under the name `to`, when that field is defined. */
  function CopyDefined(m: Record, context: Record, from: string, to: string): (r: Record)
    ensures r.Keys == if Get(context, from) == Undefined then m.Keys else m.Keys + {to}
    ensures to in r && Get(context, from) != Undefined ==> r[to] == context[from]
    ensures forall key :: key in m && key != to ==> r[key] == m[key]
    ensures Get(context, from) == Undefined ==> r == m
  {
    if Get(context, from) == Undefined then m else m[to := context[from]]
  }

  /**
   * The slot props derived from the ambient context: each defined context
   * field, under its slot-prop name; undefined fields are left out, never
   * given a default.
   */
  function ContextProps(context: Record): (r: Record)
    ensures r.Keys <= MappedKeys
  {
    var m := CopyDefined(map[], context, "dfpNetworkId", "dfpNetworkId");
    var m := CopyDefined(m, context, "dfpAdUnit", "adUnit");
    var m := CopyDefined(m, context, "dfpSizeMapping", "sizeMapping");
    CopyDefined(m, context, "dfpTargetingArguments", "targetingArguments")
  }

  /**
   * `mapContextToAdSlotProps` produces only the four slot props, each
   * exactly when its context field is defined, and with that field's value.
   */
  lemma ContextPropsFields(context: Record)
    ensures ContextProps(context).Keys <= MappedKeys
    ensures "dfpNetworkId" in ContextProps(context) <==> Get(context, "dfpNetworkId") != Undefined
    ensures "adUnit" in ContextProps(context) <==> Get(context, "dfpAdUnit") != Undefined
    ensures "sizeMapping" in ContextProps(context) <==> Get(context, "dfpSizeMapping") != Undefined
    ensures "targetingArguments" in ContextProps(context) <==> Get(context, "dfpTargetingArguments") != Undefined
    ensures "dfpNetworkId" in ContextProps(context) ==>
      ContextProps(context)["dfpNetworkId"] == context["dfpNetworkId"]
    ensures "adUnit" in ContextProps(context) ==> ContextProps(context)["adUnit"] == context["dfpAdUnit"]
    ensures "sizeMapping" in ContextProps(context) ==>
      ContextProps(context)["sizeMapping"] == context["dfpSizeMapping"]
    ensures "targetingArguments" in ContextProps(context) ==>
      ContextProps(context)["targetingArguments"] == context["dfpTargetingArguments"]
  {
  }

  /** React applies `defaultProps` to every prop that is `undefined`. */
  function WithDefaults(props: Record): (r: Record)
    ensures Get(r, "fetchNow") == (if Get(props, "fetchNow") == Undefined then Bool(false) else props["fetchNow"])
    ensures forall key :: key != "fetchNow" ==> Get(r, key) == Get(props, key)
    ensures r.Keys == props.Keys + {"fetchNow"}
  {
    if Get(props, "fetchNow") == Undefined then props["fetchNow" := Bool(false)] else props
  }

  /** A state slot id that the counter handed out before it reached `count`. */
  predicate IsAllocated(v: Value, count: nat)
  {
    v.Str? && ParseSlotId(v.s).Some? && ParseSlotId(v.s).value < count
    && v.s == SlotIdName(ParseSlotId(v.s).value)
  }

  class AdSlot {
    const props: Record
    const context: Record
    const counter: SlotCounter
    const trace: Trace
    var state: SlotState

    /**
     * The state keeps an explicit `slotId` prop as its id; without one it
     * holds `null` until a generated name is committed.
     */
    ghost predicate Valid()
      reads this, counter
    {
      && (Truthy(Get(props, "slotId")) ==> state.slotId == props["slotId"])
      && (!Truthy(Get(props, "slotId")) ==> state.slotId == Null || IsAllocated(state.slotId, counter.count))
      && state.className == (if Truthy(Get(props, "className")) then props["className"] else Str(""))
    }

    constructor (elementProps: Record, context: Record, counter: SlotCounter, trace: Trace)
      ensures this.props == WithDefaults(elementProps) && this.context == context
      ensures this.counter == counter && this.trace == trace
      ensures state.slotId == (if Truthy(Get(elementProps, "slotId")) then elementProps["slotId"] else Null)
      ensures state.className == (if Truthy(Get(elementProps, "className")) then elementProps["className"] else Str(""))
      ensures Valid()
    {
      var p := WithDefaults(elementProps);
      props := p;
      this.context := context;
      this.counter := counter;
      this.trace := trace;
      state := SlotState(
        if Truthy(Get(p, "slotId")) then p["slotId"] else Null,
        if Truthy(Get(p, "className")) then p["className"] else Str(""));
    }

    /** `props.slotId || state.slotId`. */
    function GetSlotId(): (v: Value)
      reads this
      ensures Truthy(v) <==> Truthy(Get(props, "slotId")) || Truthy(state.slotId)
      ensures Truthy(Get(props, "slotId")) ==> v == props["slotId"]
      ensures !Truthy(Get(props, "slotId")) ==> v == state.slotId
    {
      if Truthy(Get(props, "slotId")) then props["slotId"] else state.slotId
    }

    /** The explicit prop wins; otherwise the state's id, and the two never disagree. */
    lemma GetSlotIdPrecedence()
      requires Valid()
      ensures Truthy(Get(props, "slotId")) ==> GetSlotId() == props["slotId"]
      ensures !Truthy(Get(props, "slotId")) ==> GetSlotId() == state.slotId
      ensures GetSlotId() == state.slotId
    {
    }

    method GenerateSlotId() returns (id: string)
      modifies counter
      ensures id == SlotIdName(old(counter.count)) && counter.count == old(counter.count) + 1
    {
      id := counter.Next();
    }

    /** `{slotId, className}` as spread into a record. */
    function StateRecord(): (r: Record)
      reads this
      ensures r.Keys == {"slotId", "className"}
      ensures r["slotId"] == state.slotId && r["className"] == state.className
    {
      map["slotId" := state.slotId, "className" := state.className]
    }

    method MapContextToAdSlotProps() returns (mapped: Record)
      ensures mapped == ContextProps(context)
    {
      mapped := map[];
      if Get(context, "dfpNetworkId") != Undefined {
        mapped := mapped["dfpNetworkId" := context["dfpNetworkId"]];
      }
      if Get(context, "dfpAdUnit") != Undefined {
        mapped := mapped["adUnit" := context["dfpAdUnit"]];
      }
      if Get(context, "dfpSizeMapping") != Undefined {
        mapped := mapped["sizeMapping" := context["dfpSizeMapping"]];
      }
      if Get(context, "dfpTargetingArguments") != Undefined {
        mapped := mapped["targetingArguments" := context["dfpTargetingArguments"]];
      }
      assert mapped.Keys == ContextProps(context).Keys;
    }

    /**
     * The record handed to `DFPManager.registerSlot`: context, then props,
     * then state, then the refresh adapter, later layers winning.
     */
    function RegisterRecord(): (r: Record)
      reads this
      ensures "slotShouldRefresh" in r && r["slotShouldRefresh"] == RefreshAdapter(this)
      ensures "slotId" in r && r["slotId"] == state.slotId
    {
      ContextProps(context) + props + StateRecord() + map["slotShouldRefresh" := RefreshAdapter(this)]
    }

    /** The record handed to `DFPManager.unregisterSlot`: context, then props, then state. */
    function UnregisterRecord(): (r: Record)
      reads this
      ensures "slotId" in r && r["slotId"] == state.slotId
      ensures "className" in r && r["className"] == state.className
    {
      ContextProps(context) + props + StateRecord()
    }

    /** The record handed to the owner's `shouldRefresh`: context, then props, then the current id. */
    function RefreshRecord(): (r: Record)
      reads this
      ensures "slotId" in r && r["slotId"] == GetSlotId()
    {
      ContextProps(context) + props + map["slotId" := GetSlotId()]
    }

    /**
     * The unregistration record layers context under props under state: the
     * state's id and class name always win, a prop wins over a context
     * field, and every key comes from one of the three.
     */
    lemma UnregisterRecordLayers()
      ensures "slotId" in UnregisterRecord() && UnregisterRecord()["slotId"] == state.slotId
      ensures "className" in UnregisterRecord() && UnregisterRecord()["className"] == state.className
      ensures forall key :: key in props && key != "slotId" && key != "className" ==>
        key in UnregisterRecord() && UnregisterRecord()[key] == props[key]
      ensures forall key :: key in ContextProps(context) && key !in props && key != "slotId" && key != "className" ==>
        key in UnregisterRecord() && UnregisterRecord()[key] == ContextProps(context)[key]
      ensures forall key :: key in UnregisterRecord() ==>
        key in ContextProps(context) || key in props || key == "slotId" || key == "className"
    {
      var low, high := ContextProps(context), StateRecord();
      forall key
        ensures key in props && key != "slotId" && key != "className" ==>
          key in UnregisterRecord() && UnregisterRecord()[key] == props[key]
        ensures key in low && key !in props && key != "slotId" && key != "className" ==>
          key in UnregisterRecord() && UnregisterRecord()[key] == low[key]
        ensures key in UnregisterRecord() ==> key in low || key in props || key == "slotId" || key == "className"
      {
        LayerAt(low, props, high, key);
      }
    }

    /**
     * The refresh record layers context under props under the current id:
     * the id always wins, a prop wins over a context field, and every key
     * comes from one of the three.
     */
    lemma RefreshRecordLayers()
      ensures "slotId" in RefreshRecord() && RefreshRecord()["slotId"] == GetSlotId()
      ensures forall key :: key in props && key != "slotId" ==>
        key in RefreshRecord() && RefreshRecord()[key] == props[key]
      ensures forall key :: key in ContextProps(context) && key !in props && key != "slotId" ==>
        key in RefreshRecord() && RefreshRecord()[key] == ContextProps(context)[key]
      ensures forall key :: key in RefreshRecord() ==> key in ContextProps(context) || key in props || key == "slotId"
    {
      var low, high := ContextProps(context), map["slotId" := GetSlotId()];
      forall key
        ensures key in props && key != "slotId" ==> key in RefreshRecord() && RefreshRecord()[key] == props[key]
        ensures key in low && key !in props && key != "slotId" ==>
          key in RefreshRecord() && RefreshRecord()[key] == low[key]
        ensures key in RefreshRecord() ==> key in low || key in props || key == "slotId"
      {
        LayerAt(low, props, high, key);
      }
    }

    /** The two records differ only in the refresh adapter the registration adds. */
    lemma RegisterExtendsUnregister()
      ensures RegisterRecord() == UnregisterRecord()["slotShouldRefresh" := RefreshAdapter(this)]
      ensures forall key :: key != "slotShouldRefresh" ==> Get(RegisterRecord(), key) == Get(UnregisterRecord(), key)
    {
    }

    /** The argument of `onSlotRegister`. */
    function RegisterPayload(): (r: Record)
      reads this, counter
      ensures r.Keys == {"slotId", "sizes", "slotCount", "adElementRef"}
      ensures "slotId" in r && r["slotId"] == GetSlotId() && r["sizes"] == Get(props, "sizes")
      ensures r["slotCount"] == Num(counter.count) && r["adElementRef"] == ElementRef(this)
    {
      map["slotId" := GetSlotId(), "sizes" := Get(props, "sizes"),
          "slotCount" := Num(counter.count), "adElementRef" := ElementRef(this)]
    }

    /** The calls `slotRegisterCallback` makes: the owner's `onSlotRegister`, when it is a function. */
    function RegisterCallbackCalls(): (calls: seq<Call>)
      reads this, counter
      ensures |calls| <= 1
      ensures calls != [] <==> IsFunction(Get(props, "onSlotRegister"))
      ensures calls != [] ==> calls[0] == Invoke(props["onSlotRegister"], RegisterPayload())
      ensures forall i :: 0 <= i < |calls| ==> calls[i].Invoke?
    {
      if IsFunction(Get(props, "onSlotRegister")) then [Invoke(props["onSlotRegister"], RegisterPayload())] else []
    }

    /** `props.fetchNow === true`. */
    predicate FetchNow()
      reads this
      ensures FetchNow() ==> Truthy(Get(props, "fetchNow"))
      ensures Get(props, "fetchNow") == Undefined ==> !FetchNow()
    {
      Get(props, "fetchNow") == Bool(true)
    }

    /** The fetch `doRegisterSlot` asks for: `DFPManager.load` of the slot's id, when `fetchNow` is `true`. */
    function FetchCalls(): (calls: seq<Call>)
      reads this
      ensures |calls| <= 1
      ensures calls != [] <==> FetchNow()
      ensures forall i :: 0 <= i < |calls| ==> calls[i] == Load(GetSlotId())
    {
      if FetchNow() then [Load(GetSlotId())] else []
    }

    /** The handler attachments of a registration, in channel order. */
    function Attachments(): (calls: seq<Call>)
      reads this
      ensures |calls| == 3
      ensures forall i :: 0 <= i < |calls| ==> calls[i].Attach? && calls[i].handler == this
      ensures forall i, j :: 0 <= i < j < |calls| ==> calls[i].channel != calls[j].channel
    {
      [Attach(RenderEnded, this), Attach(IsViewable, this), Attach(VisibilityChanged, this)]
    }

    /** The handler detachments of an unregistration, in channel order. */
    function Detachments(): (calls: seq<Call>)
      reads this
      ensures |calls| == 3
      ensures forall i :: 0 <= i < |calls| ==> calls[i].Detach? && calls[i].handler == this
      ensures forall i, j :: 0 <= i < j < |calls| ==> calls[i].channel != calls[j].channel
    {
      [Detach(RenderEnded, this), Detach(IsViewable, this), Detach(VisibilityChanged, this)]
    }

    /** Everything `doRegisterSlot` calls, in order. */
    function RegistrationCalls(): (calls: seq<Call>)
      reads this, counter
      ensures |calls| >= 4 && calls[0] == Register(RegisterRecord())
    {
      [Register(RegisterRecord())]
      + FetchCalls()
      + Attachments()
      + RegisterCallbackCalls()
    }

    /**
     * Registration comes first and happens once; the fetch follows it exactly
     * when `fetchNow` is `true`; then the three handlers, in channel order;
     * the owner's `onSlotRegister` comes last, when it is a function.
     */
    lemma RegistrationOrder()
      ensures var calls, a := RegistrationCalls(), if FetchNow() then 2 else 1;
        && |calls| == a + 3 + (if IsFunction(Get(props, "onSlotRegister")) then 1 else 0)
        && calls[0] == Register(RegisterRecord())
        && (forall i :: 0 < i < |calls| ==> !calls[i].Register?)
        && (FetchNow() ==> calls[1] == Load(GetSlotId()))
        && ((exists i :: 0 <= i < |calls| && calls[i].Load?) <==> FetchNow())
        && calls[a..a + 3] == Attachments()
        && calls[a + 3..] == RegisterCallbackCalls()
    {
      RegistrationShape(RegisterRecord(), FetchCalls(), Attachments(),
                        RegisterCallbackCalls(), FetchNow(), GetSlotId());
    }

    /** Everything `unregisterSlot` calls, in order. */
    function UnregistrationCalls(): (calls: seq<Call>)
      reads this
      ensures |calls| == 4
      ensures calls[0] == Unregister(UnregisterRecord())
      ensures calls[1..] == Detachments()
    {
      [Unregister(UnregisterRecord())] + Detachments()
    }

    /**
     * Unregistering detaches exactly the handlers registering attached, on
     * the same channels and in the same order, and unregisters once.
     */
    lemma AttachDetachSymmetry()
      ensures Attached(RegistrationCalls()) == Detached(UnregistrationCalls())
      ensures Attached(RegistrationCalls()) == [(RenderEnded, this), (IsViewable, this), (VisibilityChanged, this)]
      ensures Unregistrations(UnregistrationCalls()) == 1 && Unregistrations(RegistrationCalls()) == 0
    {
      RegistrationHandlers();
      UnregistrationHandlers();
    }

    lemma RegistrationHandlers()
      ensures Attached(RegistrationCalls()) == [(RenderEnded, this), (IsViewable, this), (VisibilityChanged, this)]
      ensures Unregistrations(RegistrationCalls()) == 0
    {
      RegistrationHandlerShape(RegisterRecord(), FetchNow(), GetSlotId(), this, RegisterCallbackCalls());
    }

    lemma UnregistrationHandlers()
      ensures Detached(UnregistrationCalls()) == [(RenderEnded, this), (IsViewable, this), (VisibilityChanged, this)]
      ensures Unregistrations(UnregistrationCalls()) == 1
    {
      UnregistrationHandlerShape(Unregister(UnregisterRecord()), Detachments());
      DetachmentsDetached();
    }

    lemma DetachmentsDetached()
      ensures Detached(Detachments()) == [(RenderEnded, this), (IsViewable, this), (VisibilityChanged, this)]
    {
      ThreeHandlerCalls(Detachments());
    }

    method SlotRegisterCallback()
      modifies trace
      ensures trace.calls == old(trace.calls) + RegisterCallbackCalls()
    {
      if IsFunction(Get(props, "onSlotRegister")) {
        trace.Append(Invoke(props["onSlotRegister"], RegisterPayload()));
      }
    }

    method DoRegisterSlot()
      modifies trace
      ensures trace.calls == old(trace.calls) + RegistrationCalls()
    {
      ghost var before := trace.calls;
      var mapped := MapContextToAdSlotProps();
      trace.Append(Register(mapped + props + StateRecord() + map["slotShouldRefresh" := RefreshAdapter(this)]));
      if Get(props, "fetchNow") == Bool(true) {
        trace.Append(Load(GetSlotId()));
      }
      ghost var loaded := trace.calls;
      assert loaded == before + [Register(RegisterRecord())] + FetchCalls();
      AttachHandlers();
      ghost var attached := trace.calls;
      SlotRegisterCallback();
      assert trace.calls == attached + RegisterCallbackCalls();
      AppendAssociates(before, [Register(RegisterRecord())], FetchCalls(), Attachments(), RegisterCallbackCalls());
    }

    /** The three `DFPManager.attach` calls of `doRegisterSlot`. */
    method AttachHandlers()
      modifies trace
      ensures trace.calls == old(trace.calls) + Attachments()
    {
      ghost var before := trace.calls;
      trace.Append(Attach(RenderEnded, this));
      trace.Append(Attach(IsViewable, this));
      trace.Append(Attach(VisibilityChanged, this));
      Singles(Attach(RenderEnded, this), Attach(IsViewable, this), Attach(VisibilityChanged, this));
      AppendAssociates(before, [Attach(RenderEnded, this)], [Attach(IsViewable, this)], [Attach(VisibilityChanged, this)], []);
    }

    /** The announcement `componentDidMount` makes first: `context.newSlotCallback()`, when it is truthy. */
    function AnnouncementCalls(): (calls: seq<Call>)
      reads this
      ensures |calls| <= 1
      ensures calls != [] <==> Truthy(Get(context, "newSlotCallback"))
      ensures calls != [] ==> calls[0] == NewSlotCallback(context["newSlotCallback"])
    {
      if Truthy(Get(context, "newSlotCallback")) then [NewSlotCallback(context["newSlotCallback"])] else []
    }

    /**
     * A name is generated, and committed to the state, only when the state
     * holds no id; then the slot registers.
     */
    method RegisterSlot()
      requires Valid()
      modifies this, counter, trace
      ensures Valid()
      ensures old(state.slotId) == Null ==>
        && state.slotId == Str(SlotIdName(old(counter.count)))
        && counter.count == old(counter.count) + 1
      ensures old(state.slotId) != Null ==> state.slotId == old(state.slotId) && counter.count == old(counter.count)
      ensures state.className == old(state.className)
      ensures Truthy(Get(props, "slotId")) ==> GetSlotId() == props["slotId"] && counter.count == old(counter.count)
      ensures Truthy(GetSlotId()) && GetSlotId() == state.slotId
      ensures Get(RegisterRecord(), "slotId") == GetSlotId()
      ensures trace.calls == old(trace.calls) + RegistrationCalls()
    {
      ghost var before := trace.calls;
      CommitSlotId();
      DoRegisterSlot();
      assert trace.calls == before + RegistrationCalls();
    }

    /** The `setState({slotId: generateSlotId()})` step of `registerSlot`, taken only when the state has no id. */
    method CommitSlotId()
      requires Valid()
      modifies this, counter
      ensures Valid()
      ensures old(state.slotId) == Null ==>
        && state.slotId == Str(SlotIdName(old(counter.count)))
        && counter.count == old(counter.count) + 1
      ensures old(state.slotId) != Null ==> state.slotId == old(state.slotId) && counter.count == old(counter.count)
      ensures state.className == old(state.className)
      ensures Truthy(state.slotId) && GetSlotId() == state.slotId
    {
      if state.slotId == Null {
        var id := GenerateSlotId();
        SlotIdRoundTrip(old(counter.count));
        state := state.(slotId := Str(id));
        assert IsAllocated(state.slotId, counter.count);
      }
    }

    method ComponentDidMount()
      requires Valid()
      modifies this, counter, trace
      ensures Valid()
      ensures old(state.slotId) == Null ==>
        && state.slotId == Str(SlotIdName(old(counter.count)))
        && counter.count == old(counter.count) + 1
      ensures old(state.slotId) != Null ==> state.slotId == old(state.slotId) && counter.count == old(counter.count)
      ensures state.className == old(state.className)
      ensures trace.calls == old(trace.calls) + AnnouncementCalls() + RegistrationCalls()
    {
      ghost var before := trace.calls;
      if Truthy(Get(context, "newSlotCallback")) {
        trace.Append(NewSlotCallback(context["newSlotCallback"]));
      }
      ghost var announced := trace.calls;
      assert announced == before + AnnouncementCalls();
      RegisterSlot();
      assert trace.calls == announced + RegistrationCalls();
    }

    method UnregisterSlot()
      modifies trace
      ensures trace.calls == old(trace.calls) + UnregistrationCalls()
    {
      ghost var before := trace.calls;
      var mapped := MapContextToAdSlotProps();
      trace.Append(Unregister(mapped + props + StateRecord()));
      assert trace.calls == before + [Unregister(UnregisterRecord())];
      DetachHandlers();
    }

    /** The three `DFPManager.detach` calls of `unregisterSlot`. */
    method DetachHandlers()
      modifies trace
      ensures trace.calls == old(trace.calls) + Detachments()
    {
      ghost var before := trace.calls;
      trace.Append(Detach(RenderEnded, this));
      trace.Append(Detach(IsViewable, this));
      trace.Append(Detach(VisibilityChanged, this));
      Singles(Detach(RenderEnded, this), Detach(IsViewable, this), Detach(VisibilityChanged, this));
      AppendAssociates(before, [Detach(RenderEnded, this)], [Detach(IsViewable, this)], [Detach(VisibilityChanged, this)], []);
    }

    method ComponentWillUnmount()
      modifies trace
      ensures trace.calls == old(trace.calls) + UnregistrationCalls()
    {
      UnregisterSlot();
    }

    /** The owner calls made by the render-ended handler for one broadcast event. */
    function SlotRenderEnded(eventData: Record): (calls: seq<Call>)
      reads this
      ensures |calls| <= 1
      ensures calls != [] <==> Get(eventData, "slotId") == GetSlotId() && Get(props, "onSlotRender") != Undefined
      ensures calls != [] ==> calls[0] == Invoke(props["onSlotRender"], eventData["adElementRef" := ElementRef(this)])
    {
      if Get(eventData, "slotId") == GetSlotId() && Get(props, "onSlotRender") != Undefined then
        [Invoke(props["onSlotRender"], eventData["adElementRef" := ElementRef(this)])]
      else []
    }

    /** The owner calls made by the is-viewable handler for one broadcast event. */
    function SlotIsViewable(eventData: Record): (calls: seq<Call>)
      reads this
      ensures |calls| <= 1
      ensures calls != [] <==> Get(eventData, "slotId") == GetSlotId() && Get(props, "onSlotIsViewable") != Undefined
      ensures calls != [] ==> calls[0] == Invoke(props["onSlotIsViewable"], eventData)
    {
      if Get(eventData, "slotId") == GetSlotId() && Get(props, "onSlotIsViewable") != Undefined then
        [Invoke(props["onSlotIsViewable"], eventData)]
      else []
    }

    /** The owner calls made by the visibility-changed handler for one broadcast event. */
    function SlotVisibilityChanged(eventData: Record): (calls: seq<Call>)
      reads this
      ensures |calls| <= 1
      ensures calls != [] <==>
        Get(eventData, "slotId") == GetSlotId() && Get(props, "onSlotVisibilityChanged") != Undefined
      ensures calls != [] ==> calls[0] == Invoke(props["onSlotVisibilityChanged"], eventData)
    {
      if Get(eventData, "slotId") == GetSlotId() && Get(props, "onSlotVisibilityChanged") != Undefined then
        [Invoke(props["onSlotVisibilityChanged"], eventData)]
      else []
    }

    /** The handler this slot attached to `channel`. */
    function Notify(channel: Channel, eventData: Record): seq<Call>
      reads this
    {
      match channel
      case RenderEnded => SlotRenderEnded(eventData)
      case IsViewable => SlotIsViewable(eventData)
      case VisibilityChanged => SlotVisibilityChanged(eventData)
    }

    /** An event whose `slotId` is another slot's id never reaches this slot's owner. */
    lemma OtherSlotsEventsIgnored(other: AdSlot, channel: Channel, eventData: Record)
      requires other.GetSlotId() != GetSlotId()
      requires Get(eventData, "slotId") == other.GetSlotId()
      ensures Notify(channel, eventData) == []
    {
    }

    /**
     * `props.shouldRefresh` is `shouldRefresh`'s meaning.  Without the prop
     * the slot may always refresh.
     */
    method SlotShouldRefresh(shouldRefresh: Record -> bool) returns (r: bool)
      ensures Get(props, "shouldRefresh") == Undefined ==> r
      ensures Get(props, "shouldRefresh") != Undefined ==> r == shouldRefresh(RefreshRecord())
    {
      r := true;
      if Get(props, "shouldRefresh") != Undefined {
        var mapped := MapContextToAdSlotProps();
        r := shouldRefresh(mapped + props + map["slotId" := GetSlotId()]);
      }
    }

    /** The space-separated pieces of the state's class name, then the base class. */
    method GetClasses() returns (classes: seq<string>)
      requires state.className.Str?
      ensures |classes| >= 2 && classes[|classes| - 1] == BaseClass
      ensures ClassNames.Join(classes[..|classes| - 1], ' ') == state.className.s
      ensures forall i :: 0 <= i < |classes| - 1 ==> ' ' !in classes[i]
      ensures ClassNames.Join(classes, ' ') == state.className.s + " " + BaseClass
    {
      var extraClasses := ClassNames.Split(state.className.s, ' ');
      ClassNames.JoinSplit(state.className.s, ' ');
      ClassNames.JoinSnoc(extraClasses, BaseClass, ' ');
      classes := extraClasses + [BaseClass];
      assert classes[..|classes| - 1] == extraClasses;
    }
  }

  /** The order facts of a registration, for any record, fetch decision and handlers. */
  lemma RegistrationShape(reg: Record, load: seq<Call>, att: seq<Call>, cb: seq<Call>, fetch: bool, id: Value)
    requires load == if fetch then [Load(id)] else []
    requires |att| == 3 && forall i :: 0 <= i < 3 ==> att[i].Attach?
    requires |cb| <= 1 && forall i :: 0 <= i < |cb| ==> cb[i].Invoke?
    ensures var calls, a := [Register(reg)] + load + att + cb, if fetch then 2 else 1;
      && |calls| == a + 3 + |cb|
      && calls[0] == Register(reg)
      && (forall i :: 0 < i < |calls| ==> !calls[i].Register?)
      && (fetch ==> calls[1] == Load(id))
      && ((exists i :: 0 <= i < |calls| && calls[i].Load?) <==> fetch)
      && calls[a..a + 3] == att
      && calls[a + 3..] == cb
  {
    var calls, a := [Register(reg)] + load + att + cb, if fetch then 2 else 1;
    assert forall i :: a <= i < |calls| ==> calls[i] == (att + cb)[i - a];
  }

  /** A registration attaches its slot's three handlers, in channel order, and unregisters nothing. */
  lemma RegistrationHandlerShape(reg: Record, fetch: bool, id: Value, slot: AdSlot, cb: seq<Call>)
    requires |cb| <= 1 && forall i :: 0 <= i < |cb| ==> cb[i].Invoke?
    ensures var calls := [Register(reg)] + (if fetch then [Load(id)] else []) + slot.Attachments() + cb;
      && Attached(calls) == [(RenderEnded, slot), (IsViewable, slot), (VisibilityChanged, slot)]
      && Unregistrations(calls) == 0
  {
    var head := [Register(reg)] + (if fetch then [Load(id)] else []);
    assert |head| <= 2 && forall i :: 0 <= i < |head| ==> head[i].Register? || head[i].Load?;
    NoHandlerCalls(head);
    HandlersBetween(head, slot.Attachments(), cb);
    ThreeHandlerCalls(slot.Attachments());
  }

  /** An unregistration detaches what its handler calls detach, and unregisters once. */
  lemma UnregistrationHandlerShape(unreg: Call, det: seq<Call>)
    requires unreg.Unregister?
    requires |det| == 3 && forall i :: 0 <= i < 3 ==> det[i].Detach?
    ensures Detached([unreg] + det) == Detached(det)
    ensures Unregistrations([unreg] + det) == 1
  {
    HandlersBetween([unreg], det, []);
    assert [unreg] + det + [] == [unreg] + det;
    NoHandlerCalls([unreg]);
  }

  /** `{...low, ...mid, ...high}` at one key: the value comes from the last layer that has the key. */
  lemma LayerAt<K, V>(low: map<K, V>, mid: map<K, V>, high: map<K, V>, k: K)
    ensures k in low + mid + high <==> k in low || k in mid || k in high
    ensures k in high ==> (low + mid + high)[k] == high[k]
    ensures k !in high && k in mid ==> (low + mid + high)[k] == mid[k]
    ensures k !in high && k !in mid && k in low ==> (low + mid + high)[k] == low[k]
  {
  }

  lemma AppendAssociates<T>(p: seq<T>, a: seq<T>, b: seq<T>, c: seq<T>, d: seq<T>)
    ensures p + (a + b + c + d) == p + a + b + c + d
  {
  }

  /** The handlers attached by `calls`, in order. */
  function Attached(calls: seq<Call>): seq<(Channel, AdSlot)>
  {
    if calls == [] then []
    else
      Attached(calls[..|calls| - 1])
      + match calls[|calls| - 1] case Attach(channel, slot) => [(channel, slot)] case _ => []
  }

  /** The handlers detached by `calls`, in order. */
  function Detached(calls: seq<Call>): seq<(Channel, AdSlot)>
  {
    if calls == [] then []
    else
      Detached(calls[..|calls| - 1])
      + match calls[|calls| - 1] case Detach(channel, slot) => [(channel, slot)] case _ => []
  }

  /** How many `unregisterSlot` calls `calls` holds. */
  function Unregistrations(calls: seq<Call>): nat
  {
    if calls == [] then 0
    else Unregistrations(calls[..|calls| - 1]) + if calls[|calls| - 1].Unregister? then 1 else 0
  }

  lemma {:induction false} AttachedAppend(a: seq<Call>, b: seq<Call>)
    ensures Attached(a + b) == Attached(a) + Attached(b)
  {
    if b != [] {
      assert (a + b)[..|a + b| - 1] == a + b[..|b| - 1];
      AttachedAppend(a, b[..|b| - 1]);
    } else {
      assert a + b == a;
    }
  }

  lemma {:induction false} DetachedAppend(a: seq<Call>, b: seq<Call>)
    ensures Detached(a + b) == Detached(a) + Detached(b)
  {
    if b != [] {
      assert (a + b)[..|a + b| - 1] == a + b[..|b| - 1];
      DetachedAppend(a, b[..|b| - 1]);
    } else {
      assert a + b == a;
    }
  }

  lemma {:induction false} UnregistrationsAppend(a: seq<Call>, b: seq<Call>)
    ensures Unregistrations(a + b) == Unregistrations(a) + Unregistrations(b)
  {
    if b != [] {
      assert (a + b)[..|a + b| - 1] == a + b[..|b| - 1];
      UnregistrationsAppend(a, b[..|b| - 1]);
    } else {
      assert a + b == a;
    }
  }

  /**
   * Two slots that took their names from the shared counter at different
   * counts answer to different ids, so an event addressed to one of them
   * never reaches the other.
   */
  lemma GeneratedIdsSeparateSlots(a: AdSlot, b: AdSlot, i: nat, j: nat, channel: Channel, eventData: Record)
    requires !Truthy(Get(a.props, "slotId")) && a.state.slotId == Str(SlotIdName(i))
    requires !Truthy(Get(b.props, "slotId")) && b.state.slotId == Str(SlotIdName(j))
    requires i != j
    requires Get(eventData, "slotId") == a.GetSlotId()
    ensures a.GetSlotId() != b.GetSlotId()
    ensures b.Notify(channel, eventData) == []
  {
    SlotIdInjective(i, j);
  }

  lemma SingleCall(c: Call)
    ensures Attached([c]) == if c.Attach? then [(c.channel, c.handler)] else []
    ensures Detached([c]) == if c.Detach? then [(c.channel, c.handler)] else []
    ensures Unregistrations([c]) == if c.Unregister? then 1 else 0
  {
    assert [c][..0] == [];
  }

  /** At most two calls, none of them an attachment or a detachment. */
  lemma NoHandlerCalls(calls: seq<Call>)
    requires |calls| <= 2
    requires forall i :: 0 <= i < |calls| ==> !calls[i].Attach? && !calls[i].Detach?
    ensures Attached(calls) == [] && Detached(calls) == []
    ensures (forall i :: 0 <= i < |calls| ==> !calls[i].Unregister?) ==> Unregistrations(calls) == 0
    ensures |calls| == 1 && calls[0].Unregister? ==> Unregistrations(calls) == 1
  {
    if |calls| == 2 {
      SingleCall(calls[0]);
      SingleCall(calls[1]);
      assert calls == [calls[0]] + [calls[1]];
      AttachedAppend([calls[0]], [calls[1]]);
      DetachedAppend([calls[0]], [calls[1]]);
      UnregistrationsAppend([calls[0]], [calls[1]]);
    } else if |calls| == 1 {
      SingleCall(calls[0]);
      assert calls == [calls[0]];
    }
  }

  /** Three attachments, or three detachments: the handlers they name, in order. */
  lemma ThreeHandlerCalls(calls: seq<Call>)
    requires |calls| == 3
    requires (forall i :: 0 <= i < 3 ==> calls[i].Attach?) || (forall i :: 0 <= i < 3 ==> calls[i].Detach?)
    ensures var named := [(calls[0].channel, calls[0].handler), (calls[1].channel, calls[1].handler),
                          (calls[2].channel, calls[2].handler)];
      && Attached(calls) == (if calls[0].Attach? then named else [])
      && Detached(calls) == (if calls[0].Detach? then named else [])
    ensures Unregistrations(calls) == 0
  {
    assert calls == [calls[0]] + [calls[1]] + [calls[2]];
    AttachedAppend([calls[0]] + [calls[1]], [calls[2]]);
    AttachedAppend([calls[0]], [calls[1]]);
    DetachedAppend([calls[0]] + [calls[1]], [calls[2]]);
    DetachedAppend([calls[0]], [calls[1]]);
    UnregistrationsAppend([calls[0]] + [calls[1]], [calls[2]]);
    UnregistrationsAppend([calls[0]], [calls[1]]);
    SingleCall(calls[0]);
    SingleCall(calls[1]);
    SingleCall(calls[2]);
    Singles((calls[0].channel, calls[0].handler), (calls[1].channel, calls[1].handler),
            (calls[2].channel, calls[2].handler));
  }

  lemma Singles<T>(x: T, y: T, z: T)
    ensures [x] + [y] + [z] == [x, y, z]
  {
  }

  /**
   * Around three handler calls, calls that attach and detach nothing leave
   * the attached and detached handlers as the three give them.
   */
  lemma HandlersBetween(head: seq<Call>, handlers: seq<Call>, tail: seq<Call>)
    requires |head| <= 2 && |tail| <= 1 && |handlers| == 3
    requires forall i :: 0 <= i < |head| ==> !head[i].Attach? && !head[i].Detach?
    requires forall i :: 0 <= i < |tail| ==> tail[i].Invoke?
    requires (forall i :: 0 <= i < 3 ==> handlers[i].Attach?) || (forall i :: 0 <= i < 3 ==> handlers[i].Detach?)
    ensures Attached(head + handlers + tail) == Attached(handlers)
    ensures Detached(head + handlers + tail) == Detached(handlers)
    ensures Unregistrations(head + handlers + tail) == Unregistrations(head)
  {
    NoHandlerCalls(head);
    NoHandlerCalls(tail);
    ThreeHandlerCalls(handlers);
    AttachedBetween(head, handlers, tail);
    DetachedBetween(head, handlers, tail);
    UnregistrationsBetween(head, handlers, tail);
  }

  lemma AttachedBetween(head: seq<Call>, handlers: seq<Call>, tail: seq<Call>)
    requires Attached(head) == [] && Attached(tail) == []
    ensures Attached(head + handlers + tail) == Attached(handlers)
  {
    AttachedAppend(head + handlers, tail);
    AttachedAppend(head, handlers);
  }

  lemma DetachedBetween(head: seq<Call>, handlers: seq<Call>, tail: seq<Call>)
    requires Detached(head) == [] && Detached(tail) == []
    ensures Detached(head + handlers + tail) == Detached(handlers)
  {
    DetachedAppend(head + handlers, tail);
    DetachedAppend(head, handlers);
  }

  lemma UnregistrationsBetween(head: seq<Call>, handlers: seq<Call>, tail: seq<Call>)
    requires Unregistrations(handlers) == 0 && Unregistrations(tail) == 0
    ensures Unregistrations(head + handlers + tail) == Unregistrations(head)
  {
    UnregistrationsAppend(head + handlers, tail);
    UnregistrationsAppend(head, handlers);
  }
}
