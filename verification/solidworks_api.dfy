/**
 * The backend adapter `SolidWorksAPI`: a connection flag with a lazy
 * reconnect-on-use guard in front of four operations, and the values those
 * operations build.
 *
 * The automation bridge itself is not modelled. Whether it would throw is
 * a parameter of each call: `bridgeFails` says whether `connect()`'s body
 * throws, and `fault` is what the operation's own body throws, if anything.
 */
module SolidWorks {
  import opened Optional
  import opened Text

  /** A value a `catch` clause receives: an `Error` object or anything else. */
  datatype Thrown = ErrorObject(message: string) | OtherValue(rendered: string)

  /** `error instanceof Error ? error.message : String(error)`. */
  function ErrorText(e: Thrown): (text: string)
  {
    match e
    case ErrorObject(m) => m
    case OtherValue(r) => r
  }

  /** How an awaited backend call ends: it returns a value or it throws. */
  datatype Outcome<T> = Returned(value: T) | Threw(error: Thrown)

  datatype Dimensions = Dimensions(width: int, height: int, depth: int)

  /** The property bag `getModelProperties` returns. */
  datatype PropertyBag = PropertyBag(
    name: string,
    dimensions: Dimensions,
    materials: seq<string>,
    features: seq<string>)

  /** The simulated properties of the model at `filePath`. */
  function ModelProperties(filePath: string): (bag: PropertyBag)
  {
    PropertyBag(
      LastSegment(filePath),
      Dimensions(100, 50, 25),
      ["Aluminum 6061"],
      ["Extrude1", "Fillet1", "Cut1"])
  }

  /**
   * The bag names the file by its last path segment and holds only
   * constants besides: two paths give equal bags exactly when they end in
   * the same segment.
   */
  lemma ModelPropertiesByName(p: string, q: string)
    ensures ModelProperties(p).name == LastSegment(p)
    ensures '/' !in ModelProperties(p).name
    ensures ModelProperties(p) == ModelProperties(q) <==> LastSegment(p) == LastSegment(q)
  {
  }

  const TempPartPrefix := "C:/Temp/NewPart_"
  const PartExtension := ".SLDPRT"

  /** `C:/Temp/NewPart_${Date.now()}.SLDPRT`, with the clock reading `now`. */
  function TempPartPath(now: nat): (path: string)
    ensures |path| > |TempPartPrefix| + |PartExtension|
    ensures path[..|TempPartPrefix|] == TempPartPrefix
    ensures path[|path| - |PartExtension|..] == PartExtension
  {
    TempPartPrefix + Decimal(now) + PartExtension
  }

  /** The timestamp a temporary part path was made from, if it is one. */
  function PartStamp(path: string): (stamp: Option<nat>)
  {
    var lo, hi := |TempPartPrefix|, |path| - |PartExtension|;
    if lo < hi && path[..lo] == TempPartPrefix && path[hi..] == PartExtension
       && AllDigits(path[lo..hi])
    then Some(DecimalValue(path[lo..hi]))
    else None
  }

  /** The timestamp can be read back from the path built from it. */
  lemma PartStampRoundTrip(now: nat)
    ensures PartStamp(TempPartPath(now)) == Some(now)
  {
    var path := TempPartPath(now);
    var lo, hi := |TempPartPrefix|, |path| - |PartExtension|;
    assert path[lo..hi] == Decimal(now);
    DecimalRoundTrip(now);
  }

  /** Parts created at distinct instants get distinct paths. */
  lemma TempPartPathInjective(a: nat, b: nat)
    ensures TempPartPath(a) == TempPartPath(b) ==> a == b
  {
    PartStampRoundTrip(a);
    PartStampRoundTrip(b);
  }

  /** `connect()`: the flag after an attempt whose body throws iff `bridgeFails`. */
  function AfterConnect(connected: bool, bridgeFails: bool): (after: bool)
  {
    if bridgeFails then connected else true
  }

  /** `if (!this.connected) await this.connect();`: the flag after the guard. */
  function AfterGuard(connected: bool, bridgeFails: bool): (after: bool)
  {
    if connected then connected else AfterConnect(connected, bridgeFails)
  }

  /** How many times the guard calls `connect()`. */
  function GuardAttempts(connected: bool): (attempts: nat)
  {
    if connected then 0 else 1
  }

  /**
   * The guard only ever raises the flag, calls `connect()` only when the
   * flag is down, and leaves the flag down only when that attempt fails.
   */
  lemma GuardTransitions(connected: bool, bridgeFails: bool)
    ensures connected ==> AfterGuard(connected, bridgeFails) && GuardAttempts(connected) == 0
    ensures !connected ==> GuardAttempts(connected) == 1
    ensures !connected ==> (AfterGuard(connected, bridgeFails) <==> !bridgeFails)
  {
  }

  /**
   * The flag and the number of `connect()` attempts after a run of
   * operations, where `fails[i]` says whether a connect attempt made by the
   * i-th operation would fail.
   */
  function Run(connected: bool, fails: seq<bool>): (final: (bool, nat))
    decreases |fails|
  {
    if |fails| == 0 then (connected, 0)
    else
      var next := Run(AfterGuard(connected, fails[0]), fails[1..]);
      (next.0, GuardAttempts(connected) + next.1)
  }

  /** The number of failing attempts before the first one that succeeds. */
  function FailuresBeforeSuccess(fails: seq<bool>): (k: nat)
    ensures k <= |fails|
    ensures forall i :: 0 <= i < k ==> fails[i]
    ensures k < |fails| ==> !fails[k]
    decreases |fails|
  {
    if |fails| == 0 || !fails[0] then 0 else 1 + FailuresBeforeSuccess(fails[1..])
  }

  /** Once connected, the adapter stays connected and never connects again. */
  lemma {:induction false} RunFromConnected(fails: seq<bool>)
    ensures Run(true, fails) == (true, 0)
    decreases |fails|
  {
    if |fails| > 0 {
      RunFromConnected(fails[1..]);
    }
  }

  /**
   * From the disconnected state, each operation retries `connect()` until one
   * attempt succeeds and none afterwards: the adapter ends connected iff some
   * attempt succeeded, after exactly one attempt more than the failures
   * before it (or one per operation when all fail).
   */
  lemma {:induction false} RunFromDisconnected(fails: seq<bool>)
    ensures var k := FailuresBeforeSuccess(fails);
      Run(false, fails) == if k < |fails| then (true, k + 1) else (false, |fails|)
    decreases |fails|
  {
    if |fails| > 0 {
      if fails[0] {
        RunFromDisconnected(fails[1..]);
      } else {
        RunFromConnected(fails[1..]);
      }
    }
  }

  /** Unfolds one step of Run at position i of `fails`. */
  lemma RunStep(connected: bool, fails: seq<bool>, i: nat)
    requires i < |fails|
    ensures Run(connected, fails[i..]) ==
      var next := Run(AfterGuard(connected, fails[i]), fails[i + 1..]);
      (next.0, GuardAttempts(connected) + next.1)
  {
    assert fails[i..][1..] == fails[i + 1..];
  }

  /** A backend operation as the adapter receives it, arguments included. */
  datatype Call =
    | OpenDocumentCall(filePath: string)
    | GetModelPropertiesCall(filePath: string)
    | CreateNewPartCall
    | ExportToPdfCall(filePath: string, outputPath: string)

  class SolidWorksAPI {
    /** The private `connected` field. */
    var connected: bool
    /** How many times `connect()` has been called. */
    ghost var connectAttempts: nat
    /** The operations called so far, with their arguments. */
    ghost var calls: seq<Call>

    /** A new adapter starts disconnected. */
    constructor ()
      ensures !connected && connectAttempts == 0 && calls == []
    {
      connected := false;
      connectAttempts := 0;
      calls := [];
    }

    /**
     * One operation's effect on the adapter: the guard ran, calling
     * `connect()` once if and only if the adapter was disconnected, and the
     * operation `call` was made.
     */
    twostate predicate GuardedCall(call: Call, bridgeFails: bool)
      reads this
    {
      && connected == AfterGuard(old(connected), bridgeFails)
      && connectAttempts == old(connectAttempts) + GuardAttempts(old(connected))
      && calls == old(calls) + [call]
    }

    /** `connect()`: raises the flag and answers true, unless the bridge throws. */
    method Connect(bridgeFails: bool) returns (ok: bool)
      modifies this
      ensures ok == !bridgeFails
      ensures connected == AfterConnect(old(connected), bridgeFails)
      ensures connectAttempts == old(connectAttempts) + 1
      ensures calls == old(calls)
    {
      connectAttempts := connectAttempts + 1;
      if bridgeFails {
        ok := false;
      } else {
        connected := true;
        ok := true;
      }
    }

    /** The reconnect-on-use guard; the result of `connect()` is ignored. */
    method Guard(bridgeFails: bool)
      modifies this
      ensures connected == AfterGuard(old(connected), bridgeFails)
      ensures connectAttempts == old(connectAttempts) + GuardAttempts(old(connected))
      ensures calls == old(calls)
    {
      if !connected {
        var _ := Connect(bridgeFails);
      }
    }

    /** `openDocument`: true unless its body throws; it never rethrows. */
    method OpenDocument(filePath: string, bridgeFails: bool, fault: Option<Thrown>)
      returns (ok: bool)
      modifies this
      ensures GuardedCall(OpenDocumentCall(filePath), bridgeFails)
      ensures ok <==> fault.None?
    {
      Guard(bridgeFails);
      calls := calls + [OpenDocumentCall(filePath)];
      match fault
      case None => ok := true;
      case Some(_) => ok := false;
    }

    /** `getModelProperties`: the simulated bag, or what its body throws, rethrown. */
    method GetModelProperties(filePath: string, bridgeFails: bool, fault: Option<Thrown>)
      returns (r: Outcome<PropertyBag>)
      modifies this
      ensures GuardedCall(GetModelPropertiesCall(filePath), bridgeFails)
      ensures fault.None? ==> r == Returned(ModelProperties(filePath))
      ensures fault.Some? ==> r == Threw(fault.value)
    {
      Guard(bridgeFails);
      calls := calls + [GetModelPropertiesCall(filePath)];
      match fault
      case None => r := Returned(ModelProperties(filePath));
      case Some(e) => r := Threw(e);
    }

    /** `createNewPart`: a fresh temporary part path, or what its body throws, rethrown. */
    method CreateNewPart(now: nat, bridgeFails: bool, fault: Option<Thrown>)
      returns (r: Outcome<string>)
      modifies this
      ensures GuardedCall(CreateNewPartCall, bridgeFails)
      ensures fault.None? ==> r.Returned? && PartStamp(r.value) == Some(now)
      ensures fault.None? ==> r == Returned(TempPartPath(now))
      ensures fault.Some? ==> r == Threw(fault.value)
    {
      Guard(bridgeFails);
      calls := calls + [CreateNewPartCall];
      match fault
      case None =>
        PartStampRoundTrip(now);
        r := Returned(TempPartPath(now));
      case Some(e) => r := Threw(e);
    }

    /** `exportToPDF`: true unless its body throws; it never rethrows. */
    method ExportToPdf(filePath: string, outputPath: string, bridgeFails: bool, fault: Option<Thrown>)
      returns (ok: bool)
      modifies this
      ensures GuardedCall(ExportToPdfCall(filePath, outputPath), bridgeFails)
      ensures ok <==> fault.None?
    {
      Guard(bridgeFails);
      calls := calls + [ExportToPdfCall(filePath, outputPath)];
      match fault
      case None => ok := true;
      case Some(_) => ok := false;
    }
  }

  /**
   * Serves `ops` one after another, in order, on one adapter: the i-th
   * operation meets a connect failure iff `fails[i]`, its body throws
   * `faults[i]`, and a new part is stamped with `now`. The adapter's flag
   * and attempt count end as Run says, and every operation is logged once,
   * in order.
   */
  method ServeInOrder(
    api: SolidWorksAPI, ops: seq<Call>, fails: seq<bool>, faults: seq<Option<Thrown>>, now: nat)
    requires |fails| == |ops| && |faults| == |ops|
    modifies api
    ensures api.connected == Run(old(api.connected), fails).0
    ensures api.connectAttempts == old(api.connectAttempts) + Run(old(api.connected), fails).1
    ensures api.calls == old(api.calls) + ops
  {
    var i := 0;
    while i < |ops|
      invariant 0 <= i <= |ops|
      invariant Run(old(api.connected), fails).0 == Run(api.connected, fails[i..]).0
      invariant old(api.connectAttempts) + Run(old(api.connected), fails).1
             == api.connectAttempts + Run(api.connected, fails[i..]).1
      invariant api.calls == old(api.calls) + ops[..i]
    {
      RunStep(api.connected, fails, i);
      match ops[i] {
      case OpenDocumentCall(path) =>
        var _ := api.OpenDocument(path, fails[i], faults[i]);
      case GetModelPropertiesCall(path) =>
        var _ := api.GetModelProperties(path, fails[i], faults[i]);
      case CreateNewPartCall =>
        var _ := api.CreateNewPart(now, fails[i], faults[i]);
      case ExportToPdfCall(path, out) =>
        var _ := api.ExportToPdf(path, out, fails[i], faults[i]);
      }
      assert ops[..i + 1] == ops[..i] + [ops[i]];
      i := i + 1;
    }
    assert ops[..i] == ops;
  }
}
