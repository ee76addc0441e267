/** The reconciliation loop: every SPOT product is either skipped (no reference, or
    already registered in OMIE), only mapped (dry run), or mapped and sent to OMIE,
    and the reply decides whether it was inserted, failed, or stops the whole run. */
module ProductSync {
  import opened PyValues
  import opened SpotMapper
  import opened OmieClient

  /** The entries of the four tally lists. */
  datatype SkippedNoRef = SkippedNoRef(name: Scalar, reason: string)
  datatype SkippedExisting = SkippedExisting(code: Scalar, name: Scalar)
  datatype InsertedRecord = InsertedRecord(code: Scalar, name: Scalar, omieCodigo: Json)
  datatype ErrorRecord = ErrorRecord(code: Scalar, name: Scalar, errorCode: Json, errorMessage: Json)

  /** The fault text that marks a product OMIE refuses for an unregistered NCM code. */
  const NcmNotRegistered: string := "NCM n\U{e3}o cadastrada"

  /** The reason recorded for a product without a reference. */
  const NoReferenceReason: string := "No ProdReference"

  /** The str() of the TypeError that `x in v` raises when `v` is not iterable. */
  function NotIterableText(typeName: string): string
  {
    "argument of type '" + typeName + "' is not iterable"
  }

  /** How the loop reads the outcome of `insert_product`. */
  datatype Verdict =
    | Accepted(omieCodigo: Json)
    | NcmFault(errorCode: Json, errorMessage: Json)
    | FatalFault(errorCode: Json, errorMessage: Json)
    | UnreadableFault(errorCode: Json, errorMessage: Json, typeError: string)
    | InsertRaised(error: InsertError)

  /** The classification of lines 62-99 of app/product_sync.py: a reply holding the key
      `faultcode` is a fault, an NCM fault when its `faultstring` contains the NCM marker
      and fatal otherwise; a `faultstring` that is not iterable makes the containment test
      raise inside the `try`. Any other reply is an insertion. */
  function ClassifyResponse(outcome: Result<map<string, Json>, InsertError>): Verdict
  {
    match outcome
    case Err(e) => InsertRaised(e)
    case Ok(response) =>
      if "faultcode" in response then
        var message := GetOr(response, "faultstring", JStr(""));
        var code := GetOr(response, "faultcode", JStr(""));
        match In(NcmNotRegistered, message)
        case Ok(found) => if found then NcmFault(code, message) else FatalFault(code, message)
        case Err(typeName) => UnreadableFault(code, message, typeName)
      else
        Accepted(if response == map[] then JNull else Get(response, "codigo_produto"))
  }

  /** The classification of a reply, case by case: an exception stays an exception;
      a reply without the key `faultcode` is an insertion whose OMIE code is
      `codigo_produto` (None for an empty reply); a reply with it is a fault carrying
      `faultcode` and `faultstring` (default ""), and the containment test on
      `faultstring` makes it an NCM fault, a fatal fault, or a fault whose text cannot
      be searched. */
  lemma ClassifyResponseCases(outcome: Result<map<string, Json>, InsertError>)
    ensures outcome.Err? ==> ClassifyResponse(outcome) == InsertRaised(outcome.error)
    ensures outcome.Ok? && "faultcode" !in outcome.value ==>
              ClassifyResponse(outcome)
              == Accepted(if outcome.value == map[] then JNull else Get(outcome.value, "codigo_produto"))
    ensures outcome.Ok? && "faultcode" in outcome.value ==>
              var code := GetOr(outcome.value, "faultcode", JStr(""));
              var message := GetOr(outcome.value, "faultstring", JStr(""));
              ClassifyResponse(outcome) == match In(NcmNotRegistered, message)
                                           case Ok(true) => NcmFault(code, message)
                                           case Ok(false) => FatalFault(code, message)
                                           case Err(t) => UnreadableFault(code, message, t)
    ensures ClassifyResponse(outcome).InsertRaised? <==> outcome.Err?
    ensures ClassifyResponse(outcome).Accepted? <==> outcome.Ok? && "faultcode" !in outcome.value
  {
  }

  /** What the loop did with one product. */
  datatype Disposition =
    | NoReference(name: Scalar)
    | AlreadyExists(code: Scalar, name: Scalar)
    | Previewed(code: Scalar, name: Scalar, payload: OmiePayload)
    | Sent(code: Scalar, name: Scalar, payload: OmiePayload, verdict: Verdict)

  /** A fatal fault ends the loop. */
  predicate Stops(d: Disposition)
  {
    d.Sent? && d.verdict.FatalFault?
  }

  /** Everything the loop body reads besides the product and the number of insert
      calls made so far: the OMIE credentials, the existing codes, the dry-run flag,
      the transport, which answers the `k`-th insert call, and the field mapper
      (`Sync` and `SyncProducts` supply `MapSpotToOmie`; the lemmas about the loop
      hold for any mapper). */
  datatype Context = Context(
    credentials: Credentials,
    existing: set<Scalar>,
    dryRun: bool,
    transport: (nat, Request<OmiePayload>) -> HttpReply,
    mapper: SpotProduct -> Result<OmiePayload, MapError>)

  /** `product.get("ProdName", "Unknown")`. */
  function ProdName(p: SpotProduct): Scalar
  {
    GetOr(p, "ProdName", JStr("Unknown"))
  }

  /** One pass of the loop body (lines 44-99 of app/product_sync.py) for the product handled
      after `calls` insert calls; a mapping error escapes the loop. */
  function Step(p: SpotProduct, ctx: Context, calls: nat): Result<Disposition, MapError>
  {
    var code := ProdReference(p);
    var name := ProdName(p);
    if !Truthy(code) then Ok(NoReference(name))
    else if code in ctx.existing then Ok(AlreadyExists(code, name))
    else
      match ctx.mapper(p)
      case Err(e) => Err(e)
      case Ok(payload) =>
        if ctx.dryRun then Ok(Previewed(code, name, payload))
        else
          var reply := ctx.transport(calls, InsertRequest(ctx.credentials, payload));
          Ok(Sent(code, name, payload, ClassifyResponse(InsertProduct(reply))))
  }

  /** What the loop body does with one product, case by case: no reference, a
      code OMIE already has, a mapping error, a dry-run preview, or an insert call
      (the `calls`-th) whose reply is classified. */
  lemma StepCases(p: SpotProduct, ctx: Context, calls: nat)
    ensures !Truthy(ProdReference(p)) ==> Step(p, ctx, calls) == Ok(NoReference(ProdName(p)))
    ensures Truthy(ProdReference(p)) && ProdReference(p) in ctx.existing ==>
              Step(p, ctx, calls) == Ok(AlreadyExists(ProdReference(p), ProdName(p)))
    ensures Truthy(ProdReference(p)) && ProdReference(p) !in ctx.existing ==>
              Step(p, ctx, calls) == match ctx.mapper(p)
                                     case Err(e) => Err(e)
                                     case Ok(payload) =>
                                       if ctx.dryRun
                                       then Ok(Previewed(ProdReference(p), ProdName(p), payload))
                                       else Ok(Sent(ProdReference(p), ProdName(p), payload,
                                                    ClassifyResponse(InsertProduct(ctx.transport(
                                                      calls, InsertRequest(ctx.credentials, payload))))))
    ensures Step(p, ctx, calls).Err? <==>
              Truthy(ProdReference(p)) && ProdReference(p) !in ctx.existing && ctx.mapper(p).Err?
    ensures Step(p, ctx, calls).Ok? && Step(p, ctx, calls).value.Sent? ==>
              Truthy(ProdReference(p)) && ProdReference(p) !in ctx.existing && !ctx.dryRun
  {
  }

  /** The dispositions of the products handled, and the mapping error that ended the
      run, if one did. */
  datatype Trace = Trace(dispositions: seq<Disposition>, raised: Option<MapError>)

  /** The loop body as a function of the product and of the number of insert
      calls made before it. */
  type Body = (SpotProduct, nat) -> Result<Disposition, MapError>

  /** The loop body of `sync_products` in context `ctx`. */
  function BodyOf(ctx: Context): Body
  {
    (p: SpotProduct, calls: nat) => Step(p, ctx, calls)
  }

  /** The loop of lines 43-101 of app/product_sync.py over `ps`, after `calls` insert calls:
      each product is handled by `body` in turn, a disposition that stops the loop is the
      last one, and a mapping error ends the run. */
  function Run(ps: seq<SpotProduct>, body: Body, calls: nat): Trace
    decreases |ps|
  {
    if ps == [] then Trace([], None)
    else
      match body(ps[0], calls)
      case Err(e) => Trace([], Some(e))
      case Ok(d) =>
        if Stops(d) then Trace([d], None)
        else
          var rest := Run(ps[1..], body, calls + |PayloadOf(d)|);
          Trace([d] + rest.dispositions, rest.raised)
  }

  /** The items each disposition adds to a list, gathered in order. */
  function Gather<T>(ds: seq<Disposition>, f: Disposition -> seq<T>): seq<T>
    decreases |ds|
  {
    if ds == [] then [] else Gather(ds[..|ds| - 1], f) + f(ds[|ds| - 1])
  }

  function NoRefOf(d: Disposition): seq<SkippedNoRef>
  {
    if d.NoReference? then [SkippedNoRef(d.name, NoReferenceReason)] else []
  }

  function ExistingOf(d: Disposition): seq<SkippedExisting>
  {
    if d.AlreadyExists? then [SkippedExisting(d.code, d.name)] else []
  }

  function InsertedOf(d: Disposition): seq<InsertedRecord>
  {
    if d.Sent? && d.verdict.Accepted? then [InsertedRecord(d.code, d.name, d.verdict.omieCodigo)] else []
  }

  function ErrorsOf(d: Disposition): seq<ErrorRecord>
  {
    if !d.Sent? then []
    else
      match d.verdict
      case Accepted(_) => []
      case NcmFault(ec, em) => [ErrorRecord(d.code, d.name, ec, em)]
      case FatalFault(ec, em) => [ErrorRecord(d.code, d.name, ec, em)]
      case UnreadableFault(ec, em, t) =>
        [ErrorRecord(d.code, d.name, ec, em),
         ErrorRecord(d.code, d.name, JStr("EXCEPTION"), JStr(NotIterableText(t)))]
      case InsertRaised(e) => [ErrorRecord(d.code, d.name, JStr("EXCEPTION"), JStr(InsertErrorText(e)))]
  }

  function PayloadOf(d: Disposition): seq<OmiePayload>
  {
    if d.Sent? then [d.payload] else []
  }

  /** The four lists and the fatal flag handed to the summary. */
  datatype Tally = Tally(
    inserted: seq<InsertedRecord>,
    skippedExisting: seq<SkippedExisting>,
    skippedNoRef: seq<SkippedNoRef>,
    errors: seq<ErrorRecord>,
    fatal: bool)

  function Collect(ds: seq<Disposition>): Tally
  {
    Tally(Gather(ds, InsertedOf), Gather(ds, ExistingOf), Gather(ds, NoRefOf), Gather(ds, ErrorsOf),
          ds != [] && Stops(ds[|ds| - 1]))
  }

  /** The failures that escape `sync_products`. */
  datatype SyncError =
    | ListingItemNoGet(typeName: string)
    | UnhashableCode(typeName: string)
    | MapFailed(error: MapError)

  /** An entry of the OMIE listing with a truthy integration code `c`. */
  predicate HasCode(listing: seq<Json>, c: Json)
  {
    exists k | 0 <= k < |listing| ::
      listing[k].JObj? && Get(listing[k].fields, "codigo_produto_integracao") == c && Truthy(c)
  }

  /** An entry on which the set comprehension of line 37 of app/product_sync.py raises: one
      that is not an object, or whose truthy code is a list or an object. */
  predicate BadEntry(e: Json)
  {
    !e.JObj?
    || (var c := Get(e.fields, "codigo_produto_integracao"); Truthy(c) && (c.JArr? || c.JObj?))
  }

  /** `existing_codes`, line 37 of app/product_sync.py: the truthy integration codes of the
      listing. */
  function ExistingCodes(listing: seq<Json>): (r: Result<set<Scalar>, SyncError>)
    ensures r.Ok? <==> forall k | 0 <= k < |listing| :: !BadEntry(listing[k])
    ensures r.Ok? ==> forall c: Scalar :: c in r.value <==> HasCode(listing, c)
    decreases |listing|
  {
    if listing == [] then Ok({})
    else
      var e := listing[0];
      if !e.JObj? then Err(ListingItemNoGet(TypeName(e)))
      else
        var c := Get(e.fields, "codigo_produto_integracao");
        if Truthy(c) && (c.JArr? || c.JObj?) then Err(UnhashableCode(TypeName(c)))
        else
          match ExistingCodes(listing[1..])
          case Err(err) => Err(err)
          case Ok(rest) =>
            ExistingCodesCons(listing, rest);
            if Truthy(c) then var code: Scalar := c; Ok({code} + rest) else Ok(rest)
  }

  /** The step of `ExistingCodes` that adds the first entry. */
  lemma ExistingCodesCons(listing: seq<Json>, rest: set<Scalar>)
    requires listing != [] && listing[0].JObj?
    requires forall c: Scalar :: c in rest <==> HasCode(listing[1..], c)
    ensures forall c: Scalar :: HasCode(listing, c) <==>
              (c in rest || (Get(listing[0].fields, "codigo_produto_integracao") == c && Truthy(c)))
  {
    forall c: Scalar
      ensures HasCode(listing, c) <==>
              (c in rest || (Get(listing[0].fields, "codigo_produto_integracao") == c && Truthy(c)))
    {
      if HasCode(listing[1..], c) {
        var k :| 0 <= k < |listing[1..]| && listing[1..][k].JObj?
                 && Get(listing[1..][k].fields, "codigo_produto_integracao") == c && Truthy(c);
        assert listing[k + 1] == listing[1..][k];
      }
      if HasCode(listing, c) {
        var k :| 0 <= k < |listing| && listing[k].JObj?
                 && Get(listing[k].fields, "codigo_produto_integracao") == c && Truthy(c);
        if k > 0 {
          assert listing[1..][k - 1] == listing[k];
        }
      }
    }
  }

  /** Lines 32-33 of app/product_sync.py: the products the loop walks. */
  function Selected(products: seq<SpotProduct>, previewCount: Option<int>): seq<SpotProduct>
  {
    if previewCount.Some? then SliceTo(products, previewCount.value) else products
  }

  /** A non-negative preview count keeps that many products from the front, in
      order. */
  lemma PreviewKeepsPrefix(products: seq<SpotProduct>, n: nat)
    ensures var s := Selected(products, Some(n));
            && |s| == (if |products| <= n then |products| else n)
            && s == products[..|s|]
  {
  }

  /** The whole of `sync_products` as a value: its outcome and the insert requests
      sent before it ended. */
  datatype SyncRun = SyncRun(outcome: Result<Tally, SyncError>, sent: seq<Request<OmiePayload>>)

  function RequestsOf(credentials: Credentials, payloads: seq<OmiePayload>): seq<Request<OmiePayload>>
  {
    seq(|payloads|, k requires 0 <= k < |payloads| => InsertRequest(credentials, payloads[k]))
  }

  /** The requests for two runs of payloads are the requests of each, in order. */
  lemma RequestsOfAppend(credentials: Credentials, payloads: seq<OmiePayload>, more: seq<OmiePayload>)
    ensures RequestsOf(credentials, payloads + more)
            == RequestsOf(credentials, payloads) + RequestsOf(credentials, more)
  {
  }

  function Sync(products: seq<SpotProduct>, listing: seq<Json>, credentials: Credentials, dryRun: bool,
                previewCount: Option<int>, transport: (nat, Request<OmiePayload>) -> HttpReply): SyncRun
  {
    match ExistingCodes(listing)
    case Err(e) => SyncRun(Err(e), [])
    case Ok(existing) =>
      var ctx := Context(credentials, existing, dryRun, transport, MapSpotToOmie);
      var t := Run(Selected(products, previewCount), BodyOf(ctx), 0);
      var sent := RequestsOf(credentials, Gather(t.dispositions, PayloadOf));
      if t.raised.Some? then SyncRun(Err(MapFailed(t.raised.value)), sent)
      else SyncRun(Ok(Collect(t.dispositions)), sent)
  }

  /** Gathering distributes over concatenation. */
  lemma {:induction false} GatherAppend<T>(a: seq<Disposition>, b: seq<Disposition>, f: Disposition -> seq<T>)
    ensures Gather(a + b, f) == Gather(a, f) + Gather(b, f)
    decreases |b|
  {
    if b == [] {
      assert a + b == a;
    } else {
      var b' := b[..|b| - 1];
      assert (a + b)[..|a + b| - 1] == a + b';
      assert (a + b)[|a + b| - 1] == b[|b| - 1];
      GatherAppend(a, b', f);
    }
  }

  lemma GatherSnoc<T>(ds: seq<Disposition>, d: Disposition, f: Disposition -> seq<T>)
    ensures Gather(ds + [d], f) == Gather(ds, f) + f(d)
  {
    assert (ds + [d])[..|ds|] == ds;
  }

  lemma GatherCons<T>(d: Disposition, ds: seq<Disposition>, f: Disposition -> seq<T>)
    ensures Gather([d] + ds, f) == f(d) + Gather(ds, f)
  {
    GatherAppend([d], ds, f);
    assert [d][..0] == [];
  }

  /** The number of insert calls a sequence of dispositions made. */
  function Calls(ds: seq<Disposition>): nat
  {
    |Gather(ds, PayloadOf)|
  }

  lemma CallsCons(d: Disposition, ds: seq<Disposition>)
    ensures Calls([d] + ds) == |PayloadOf(d)| + Calls(ds)
  {
    GatherCons(d, ds, PayloadOf);
  }

  /** The first disposition of a run is the loop body's verdict on the first product. */
  lemma RunFirst(ps: seq<SpotProduct>, body: Body, calls: nat)
    requires Run(ps, body, calls).dispositions != []
    ensures ps != [] && body(ps[0], calls) == Ok(Run(ps, body, calls).dispositions[0])
  {
  }

  /** A run with more than one disposition went on past the first product. */
  lemma RunCons(ps: seq<SpotProduct>, body: Body, calls: nat)
    requires |Run(ps, body, calls).dispositions| > 1
    ensures ps != [] && body(ps[0], calls).Ok? && !Stops(body(ps[0], calls).value)
    ensures var d := body(ps[0], calls).value;
            Run(ps, body, calls).dispositions == [d] + Run(ps[1..], body, calls + |PayloadOf(d)|).dispositions
  {
  }

  /** The run handles the products one by one in source order: the `k`-th
      disposition is what the loop body does with the `k`-th product after the
      insert calls of the ones before it. */
  lemma {:induction false} RunStepwise(ps: seq<SpotProduct>, body: Body, calls: nat, k: nat)
    requires k < |Run(ps, body, calls).dispositions|
    ensures k < |ps|
    ensures var ds := Run(ps, body, calls).dispositions;
            body(ps[k], calls + Calls(ds[..k])) == Ok(ds[k])
    decreases k
  {
    var ds := Run(ps, body, calls).dispositions;
    if k == 0 {
      RunFirst(ps, body, calls);
      assert ds[..0] == [];
    } else {
      RunCons(ps, body, calls);
      var d := body(ps[0], calls).value;
      var c' := calls + |PayloadOf(d)|;
      var rest := Run(ps[1..], body, c').dispositions;
      RunStepwise(ps[1..], body, c', k - 1);
      ConsParts(ds, d, rest, k);
      CallsCons(d, rest[..k - 1]);
      assert ps[k] == ps[1..][k - 1];
    }
  }

  lemma ConsParts<T>(s: seq<T>, x: T, r: seq<T>, k: nat)
    requires s == [x] + r && 0 < k < |s|
    ensures s[k] == r[k - 1] && s[..k] == [x] + r[..k - 1]
  {
  }

  /** A run never handles more products than it is given. */
  lemma {:induction false} RunLength(ps: seq<SpotProduct>, body: Body, calls: nat)
    ensures |Run(ps, body, calls).dispositions| <= |ps|
    decreases |ps|
  {
    if ps != [] {
      var s := body(ps[0], calls);
      if s.Ok? && !Stops(s.value) {
        RunLength(ps[1..], body, calls + |PayloadOf(s.value)|);
      }
    }
  }

  /** No disposition before the last one stops the loop. */
  lemma {:induction false} RunStopsOnlyAtEnd(ps: seq<SpotProduct>, body: Body, calls: nat, k: nat)
    requires k + 1 < |Run(ps, body, calls).dispositions|
    ensures !Stops(Run(ps, body, calls).dispositions[k])
    decreases k
  {
    RunCons(ps, body, calls);
    var d := body(ps[0], calls).value;
    if k > 0 {
      var c' := calls + |PayloadOf(d)|;
      RunStopsOnlyAtEnd(ps[1..], body, c', k - 1);
      assert Run(ps, body, calls).dispositions[k] == Run(ps[1..], body, c').dispositions[k - 1];
    }
  }

  /** A run that neither raises nor handles every product ended on a fatal fault. */
  lemma {:induction false} RunShortEndsOnStop(ps: seq<SpotProduct>, body: Body, calls: nat)
    requires Run(ps, body, calls).raised.None? && |Run(ps, body, calls).dispositions| < |ps|
    ensures var ds := Run(ps, body, calls).dispositions;
            ds != [] && Stops(ds[|ds| - 1])
    decreases |ps|
  {
    var d := body(ps[0], calls).value;
    if !Stops(d) {
      var c' := calls + |PayloadOf(d)|;
      RunShortEndsOnStop(ps[1..], body, c');
      var rest := Run(ps[1..], body, c').dispositions;
      assert Run(ps, body, calls).dispositions == [d] + rest;
    }
  }

  /** A run that raises ended on the product after the ones it handled, whose
      mapping failed with the error raised. */
  lemma {:induction false} RunRaisedAt(ps: seq<SpotProduct>, body: Body, calls: nat)
    requires Run(ps, body, calls).raised.Some?
    ensures var t := Run(ps, body, calls);
            && |t.dispositions| < |ps|
            && body(ps[|t.dispositions|], calls + Calls(t.dispositions)) == Err(t.raised.value)
    decreases |ps|
  {
    match body(ps[0], calls)
    case Err(e) =>
      assert Run(ps, body, calls).dispositions == [];
    case Ok(d) =>
      var c' := calls + |PayloadOf(d)|;
      RunRaisedAt(ps[1..], body, c');
      var rest := Run(ps[1..], body, c');
      var t := Run(ps, body, calls);
      assert t.dispositions == [d] + rest.dispositions;
      GatherCons(d, rest.dispositions, PayloadOf);
      assert ps[|t.dispositions|] == ps[1..][|rest.dispositions|];
  }

  /** The mapper copies `ProdReference` into `codigo`. */
  ghost predicate KeepsCode(mapper: SpotProduct -> Result<OmiePayload, MapError>)
  {
    forall p :: mapper(p).Ok? ==> mapper(p).value.codigo == ProdReference(p)
  }

  lemma MapperKeepsCode()
    ensures KeepsCode(MapSpotToOmie)
  {
  }

  /** Every payload carries a truthy code that is not among `existing`. */
  predicate AllNew(payloads: seq<OmiePayload>, existing: set<Scalar>)
  {
    forall k :: 0 <= k < |payloads| ==> Truthy(payloads[k].codigo) && payloads[k].codigo !in existing
  }

  /** Every payload sent carries a truthy code that is not among the existing codes. */
  lemma {:induction false} SentAreNew(ps: seq<SpotProduct>, ctx: Context, calls: nat)
    requires KeepsCode(ctx.mapper)
    ensures AllNew(Gather(Run(ps, BodyOf(ctx), calls).dispositions, PayloadOf), ctx.existing)
    decreases |ps|
  {
    if ps != [] && Step(ps[0], ctx, calls).Ok? {
      var d := Step(ps[0], ctx, calls).value;
      if d.Sent? {
        assert ctx.mapper(ps[0]) == Ok(d.payload);
      }
      var c' := calls + |PayloadOf(d)|;
      var rest := if Stops(d) then [] else Run(ps[1..], BodyOf(ctx), c').dispositions;
      if !Stops(d) {
        SentAreNew(ps[1..], ctx, c');
      }
      assert Run(ps, BodyOf(ctx), calls).dispositions == [d] + rest;
      GatherCons(d, rest, PayloadOf);
      AllNewConcat(PayloadOf(d), Gather(rest, PayloadOf), ctx.existing);
    }
  }

  lemma AllNewConcat(head: seq<OmiePayload>, tail: seq<OmiePayload>, existing: set<Scalar>)
    requires AllNew(head, existing) && AllNew(tail, existing)
    ensures AllNew(head + tail, existing)
  {
    forall k | 0 <= k < |head + tail|
      ensures Truthy((head + tail)[k].codigo) && (head + tail)[k].codigo !in existing
    {
      if k >= |head| {
        assert (head + tail)[k] == tail[k - |head|];
      }
    }
  }

  /** `sync_products` never sends a product whose code is missing or already in OMIE:
      every request is the insert call for a payload with a new, truthy code. */
  lemma SyncSendsOnlyNewCodes(products: seq<SpotProduct>, listing: seq<Json>, credentials: Credentials,
                              dryRun: bool, previewCount: Option<int>,
                              transport: (nat, Request<OmiePayload>) -> HttpReply)
    requires ExistingCodes(listing).Ok?
    ensures forall q | q in Sync(products, listing, credentials, dryRun, previewCount, transport).sent ::
              && q == InsertRequest(credentials, q.param[0])
              && Truthy(q.param[0].codigo) && q.param[0].codigo !in ExistingCodes(listing).value
  {
    var ctx := Context(credentials, ExistingCodes(listing).value, dryRun, transport, MapSpotToOmie);
    MapperKeepsCode();
    var ps := Selected(products, previewCount);
    SentAreNew(ps, ctx, 0);
    RequestsCarryPayloads(credentials, Gather(Run(ps, BodyOf(ctx), 0).dispositions, PayloadOf), ctx.existing);
  }

  lemma RequestsCarryPayloads(credentials: Credentials, payloads: seq<OmiePayload>, existing: set<Scalar>)
    requires AllNew(payloads, existing)
    ensures forall q | q in RequestsOf(credentials, payloads) ::
              && q == InsertRequest(credentials, q.param[0])
              && Truthy(q.param[0].codigo) && q.param[0].codigo !in existing
  {
    var sent := RequestsOf(credentials, payloads);
    forall q | q in sent
      ensures q == InsertRequest(credentials, q.param[0])
              && Truthy(q.param[0].codigo) && q.param[0].codigo !in existing
    {
      var k :| 0 <= k < |sent| && sent[k] == q;
      assert q == InsertRequest(credentials, payloads[k]);
    }
  }

  /** In a dry run nothing is sent, nothing is inserted, nothing fails and the loop
      never stops early. */
  lemma {:induction false} DryRunSendsNothing(ps: seq<SpotProduct>, ctx: Context, calls: nat)
    requires ctx.dryRun
    ensures var ds := Run(ps, BodyOf(ctx), calls).dispositions;
            && Gather(ds, PayloadOf) == [] && Gather(ds, InsertedOf) == [] && Gather(ds, ErrorsOf) == []
            && forall k :: 0 <= k < |ds| ==> !ds[k].Sent?
    decreases |ps|
  {
    if ps != [] {
      match Step(ps[0], ctx, calls)
      case Err(e) =>
      case Ok(d) =>
        var rest := Run(ps[1..], BodyOf(ctx), calls).dispositions;
        DryRunSendsNothing(ps[1..], ctx, calls);
        GatherCons(d, rest, PayloadOf);
        GatherCons(d, rest, InsertedOf);
        GatherCons(d, rest, ErrorsOf);
        assert Run(ps, BodyOf(ctx), calls).dispositions == [d] + rest;
    }
  }

  /** The number of records the four lists gain from one disposition. */
  function RecordCount(d: Disposition): nat
  {
    |InsertedOf(d)| + |ExistingOf(d)| + |NoRefOf(d)| + |ErrorsOf(d)|
  }

  /** Each disposition that is neither a dry-run preview nor an unreadable fault adds
      exactly one record, so the four lengths add up to the number of products
      handled. */
  lemma {:induction false} CountsAddUp(ds: seq<Disposition>)
    requires forall k :: 0 <= k < |ds| ==> !ds[k].Previewed?
    requires forall k :: 0 <= k < |ds| ==> !(ds[k].Sent? && ds[k].verdict.UnreadableFault?)
    ensures var t := Collect(ds);
            |t.inserted| + |t.skippedExisting| + |t.skippedNoRef| + |t.errors| == |ds|
    decreases |ds|
  {
    if ds != [] {
      var init := ds[..|ds| - 1];
      CountsAddUp(init);
      var d := ds[|ds| - 1];
      assert RecordCount(d) == 1;
    }
  }

  /** A dry-run preview adds no record and an unreadable fault adds two. */
  lemma RecordCounts(d: Disposition)
    ensures d.Previewed? ==> RecordCount(d) == 0
    ensures d.Sent? && d.verdict.UnreadableFault? ==> RecordCount(d) == 2
    ensures !d.Previewed? && !(d.Sent? && d.verdict.UnreadableFault?) ==> RecordCount(d) == 1
  {
  }

  /** The existing codes are read once and never updated, so two new products with
      the same code are both sent and both inserted when OMIE accepts them. */
  lemma DuplicateNewCodesBothInserted(p: SpotProduct, ctx: Context, body: map<string, Json>)
    requires Truthy(ProdReference(p)) && ProdReference(p) !in ctx.existing
    requires ctx.mapper(p).Ok? && !ctx.dryRun
    requires "faultcode" !in body
    requires forall k: nat, q :: InsertProduct(ctx.transport(k, q)) == Ok(body)
    ensures var t := Run([p, p], BodyOf(ctx), 0);
            && t.raised.None?
            && Collect(t.dispositions).inserted
               == [InsertedRecord(ProdReference(p), ProdName(p), ClassifyResponse(Ok(body)).omieCodigo),
                   InsertedRecord(ProdReference(p), ProdName(p), ClassifyResponse(Ok(body)).omieCodigo)]
  {
    var payload := ctx.mapper(p).value;
    var v := ClassifyResponse(Ok(body));
    assert v.Accepted?;
    var d := Sent(ProdReference(p), ProdName(p), payload, v);
    assert Step(p, ctx, 0) == Ok(d);
    assert Step(p, ctx, 1) == Ok(d);
    assert [p, p][1..] == [p];
    assert Run([p], BodyOf(ctx), 1).dispositions == [d];
    assert Run([p, p], BodyOf(ctx), 0).dispositions == [d, d];
    GatherSnoc([d], d, InsertedOf);
    GatherSnoc([], d, InsertedOf);
    assert [d, d] == [d] + [d] && [d] == [] + [d];
  }

  /** A fault whose `faultstring` is a string is recorded once; when it names the
      missing NCM the loop goes on, otherwise it stops. */
  lemma FaultRecordedOnce(d: Disposition)
    requires d.Sent? && (d.verdict.NcmFault? || d.verdict.FatalFault?)
    ensures ErrorsOf(d) == [ErrorRecord(d.code, d.name, d.verdict.errorCode, d.verdict.errorMessage)]
    ensures Stops(d) <==> d.verdict.FatalFault?
  {
  }

  /** An exception from `insert_product` is recorded once, under the code
      "EXCEPTION" with the exception's text, and the loop goes on. */
  lemma ExceptionRecordedOnce(d: Disposition)
    requires d.Sent? && d.verdict.InsertRaised?
    ensures ErrorsOf(d)
            == [ErrorRecord(d.code, d.name, JStr("EXCEPTION"), JStr(InsertErrorText(d.verdict.error)))]
    ensures InsertedOf(d) == [] && !Stops(d)
  {
  }

  /** An accepted reply is recorded once among the inserted products, with the code
      OMIE gave it, and nothing else is recorded. */
  lemma AcceptedRecordedOnce(d: Disposition)
    requires d.Sent? && d.verdict.Accepted?
    ensures InsertedOf(d) == [InsertedRecord(d.code, d.name, d.verdict.omieCodigo)]
    ensures ErrorsOf(d) == [] && ExistingOf(d) == [] && NoRefOf(d) == [] && !Stops(d)
  {
  }

  /** As written, a fault reply whose `faultstring` is null, a number or a bool gets
      two error records for one product (the fault, then the TypeError the
      containment test raises) and does not stop the loop. */
  lemma NonTextFaultRecordedTwice(code: Json, text: Scalar)
    requires text.JNull? || text.JNum? || text.JBool?
    ensures var v := ClassifyResponse(Ok(map["faultcode" := code, "faultstring" := text]));
            && v == UnreadableFault(code, text, TypeName(text))
            && forall c: Scalar, n: Scalar, q ::
                 var d := Sent(c, n, q, v);
                 !Stops(d) && |ErrorsOf(d)| == 2
                 && ErrorsOf(d)[1]
                    == ErrorRecord(c, n, JStr("EXCEPTION"), JStr(NotIterableText(TypeName(text))))
  {
    var m := map["faultcode" := code, "faultstring" := text];
    assert "faultcode" in m && GetOr(m, "faultstring", JStr("")) == text;
  }

  /** As written, a reply holding only a truthy `faultstring` is a fault for the
      client, which returns it whatever the status, but not for the loop, which
      records the product as inserted. */
  lemma FaultstringOnlyCountsAsInserted(status: int, reason: string, message: string)
    requires message != ""
    ensures var body := map["faultstring" := JStr(message)];
            && IsFault(body)
            && InsertProduct(Reply(status, reason, Ok(JObj(body)))) == Ok(body)
            && ClassifyResponse(Ok(body)) == Accepted(JNull)
  {
    var body := map["faultstring" := JStr(message)];
    assert Get(body, "faultstring") == JStr(message);
    assert "faultcode" !in body;
    assert "codigo_produto" !in body;
  }

  /** Lines 60-99 of app/product_sync.py for a product that is sent: insert it, then record
      the outcome. Returns the records it adds to `inserted_products` and `error_products`
      and whether the loop must stop. */
  method SendProduct(code: Scalar, name: Scalar, payload: OmiePayload, ctx: Context, calls: nat)
    returns (request: Request<OmiePayload>, inserted: seq<InsertedRecord>, errors: seq<ErrorRecord>,
             fatal: bool)
    ensures request == InsertRequest(ctx.credentials, payload)
    ensures var d := Sent(code, name, payload,
                          ClassifyResponse(InsertProduct(ctx.transport(calls, request))));
            inserted == InsertedOf(d) && errors == ErrorsOf(d) && fatal == Stops(d)
  {
    request := InsertRequest(ctx.credentials, payload);
    var response := InsertProduct(ctx.transport(calls, request));
    inserted, errors, fatal := [], [], false;
    match response
    case Err(e) =>
      errors := errors + [ErrorRecord(code, name, JStr("EXCEPTION"), JStr(InsertErrorText(e)))];
    case Ok(body) =>
      if "faultcode" in body {
        var faultMessage := GetOr(body, "faultstring", JStr(""));
        var faultCode := GetOr(body, "faultcode", JStr(""));
        errors := errors + [ErrorRecord(code, name, faultCode, faultMessage)];
        match In(NcmNotRegistered, faultMessage)
        case Err(typeName) =>
          errors := errors + [ErrorRecord(code, name, JStr("EXCEPTION"), JStr(NotIterableText(typeName)))];
        case Ok(found) =>
          fatal := !found;
      } else {
        var omieCodigo := if body != map[] then Get(body, "codigo_produto") else JNull;
        inserted := inserted + [InsertedRecord(code, name, omieCodigo)];
      }
  }

  /** After handling `products[..i]` with dispositions `done` and `calls` inserts,
      the whole run is `done` followed by the run of what is left. */
  ghost predicate Progress(products: seq<SpotProduct>, body: Body, i: nat, calls: nat,
                           done: seq<Disposition>)
  {
    && i <= |products|
    && var rest := Run(products[i..], body, calls);
       Run(products, body, 0) == Trace(done + rest.dispositions, rest.raised)
  }

  lemma ProgressStart(products: seq<SpotProduct>, body: Body)
    ensures Progress(products, body, 0, 0, [])
  {
    assert products[0..] == products;
  }

  /** A mapping error ends the run with the dispositions so far. */
  lemma ProgressRaised(products: seq<SpotProduct>, body: Body, i: nat, calls: nat,
                       done: seq<Disposition>, e: MapError)
    requires Progress(products, body, i, calls, done) && i < |products|
    requires body(products[i], calls) == Err(e)
    ensures Run(products, body, 0) == Trace(done, Some(e))
  {
    assert products[i..][0] == products[i];
    assert done + [] == done;
  }

  /** A disposition that stops the loop is the last one. */
  lemma ProgressStops(products: seq<SpotProduct>, body: Body, i: nat, calls: nat,
                      done: seq<Disposition>, d: Disposition)
    requires Progress(products, body, i, calls, done) && i < |products|
    requires body(products[i], calls) == Ok(d) && Stops(d)
    ensures Run(products, body, 0) == Trace(done + [d], None)
  {
    assert products[i..][0] == products[i];
  }

  /** Any other disposition moves the loop on to the next product. */
  lemma ProgressNext(products: seq<SpotProduct>, body: Body, i: nat, calls: nat,
                     done: seq<Disposition>, d: Disposition)
    requires Progress(products, body, i, calls, done) && i < |products|
    requires body(products[i], calls) == Ok(d) && !Stops(d)
    ensures Progress(products, body, i + 1, calls + |PayloadOf(d)|, done + [d])
  {
    var ps := products[i..];
    assert ps[0] == products[i] && ps[1..] == products[i + 1..];
    var rest := Run(ps[1..], body, calls + |PayloadOf(d)|);
    assert Run(ps, body, calls) == Trace([d] + rest.dispositions, rest.raised);
    assert done + ([d] + rest.dispositions) == (done + [d]) + rest.dispositions;
  }

  /** Once every product is handled, the run is exactly `done`. */
  lemma ProgressEnd(products: seq<SpotProduct>, body: Body, calls: nat, done: seq<Disposition>)
    requires Progress(products, body, |products|, calls, done)
    ensures Run(products, body, 0) == Trace(done, None)
  {
    assert products[|products|..] == [];
    assert done + [] == done;
  }

  /** Lines 43-99 of app/product_sync.py: the loop body for one product. Either the mapping
      error that escapes, or the disposition `d` of the product together with the records it
      adds to the four lists, the insert request it sends (if any) and whether the loop must
      stop. */
  method HandleProduct(product: SpotProduct, ctx: Context, calls: nat)
    returns (failed: Option<MapError>, noRef: seq<SkippedNoRef>, existing: seq<SkippedExisting>,
             inserted: seq<InsertedRecord>, errors: seq<ErrorRecord>,
             request: Option<Request<OmiePayload>>, fatal: bool, ghost d: Disposition)
    ensures failed.Some? <==> Step(product, ctx, calls).Err?
    ensures failed.Some? ==> failed.value == Step(product, ctx, calls).error
    ensures failed.None? ==>
              && Step(product, ctx, calls) == Ok(d) && fatal == Stops(d)
              && Handled(ctx.credentials, d, noRef, existing, inserted, errors, request)
  {
    StepCases(product, ctx, calls);
    var code := GetOr(product, "ProdReference", JNull);
    var name := GetOr(product, "ProdName", JStr("Unknown"));
    failed, noRef, existing, inserted, errors, request, fatal := None, [], [], [], [], None, false;
    if !Truthy(code) {
      noRef := [SkippedNoRef(name, NoReferenceReason)];
      d := NoReference(name);
    } else if code in ctx.existing {
      existing := [SkippedExisting(code, name)];
      d := AlreadyExists(code, name);
    } else {
      var mapped := ctx.mapper(product);
      if mapped.Err? {
        failed := Some(mapped.error);
        d := NoReference(name);
        return;
      }
      var payload := mapped.value;
      if ctx.dryRun {
        d := Previewed(code, name, payload);
      } else {
        var sentRequest;
        sentRequest, inserted, errors, fatal := SendProduct(code, name, payload, ctx, calls);
        request := Some(sentRequest);
        d := Sent(code, name, payload, ClassifyResponse(InsertProduct(ctx.transport(calls, sentRequest))));
      }
    }
  }

  /** The loop's state after `products[..i]`: the run so far is `done`, the four
      lists, the payloads sent and the requests made are gathered from it, and
      nothing in it stopped the loop. */
  ghost predicate Walked(products: seq<SpotProduct>, body: Body, credentials: Credentials, i: nat, calls: nat,
                         done: seq<Disposition>, payloads: seq<OmiePayload>,
                         inserted: seq<InsertedRecord>, skippedExisting: seq<SkippedExisting>,
                         skippedNoRef: seq<SkippedNoRef>, errors: seq<ErrorRecord>,
                         sent: seq<Request<OmiePayload>>)
  {
    && Progress(products, body, i, calls, done)
    && inserted == Gather(done, InsertedOf) && skippedExisting == Gather(done, ExistingOf)
    && skippedNoRef == Gather(done, NoRefOf) && errors == Gather(done, ErrorsOf)
    && payloads == Gather(done, PayloadOf) && calls == |payloads|
    && sent == RequestsOf(credentials, payloads)
    && (done == [] || !Stops(done[|done| - 1]))
  }

  lemma WalkStart(products: seq<SpotProduct>, body: Body, credentials: Credentials)
    ensures Walked(products, body, credentials, 0, 0, [], [], [], [], [], [], [])
  {
    ProgressStart(products, body);
  }

  /** The records and the request the loop body adds for disposition `d`. */
  ghost predicate Handled(credentials: Credentials, d: Disposition, noRef: seq<SkippedNoRef>,
                          existing: seq<SkippedExisting>, added: seq<InsertedRecord>,
                          failures: seq<ErrorRecord>, request: Option<Request<OmiePayload>>)
  {
    && noRef == NoRefOf(d) && existing == ExistingOf(d)
    && added == InsertedOf(d) && failures == ErrorsOf(d)
    && request == if d.Sent? then Some(InsertRequest(credentials, d.payload)) else None
  }

  /** A disposition that does not stop the loop moves it on to the next product. */
  lemma WalkNext(products: seq<SpotProduct>, body: Body, credentials: Credentials, i: nat, calls: nat,
                 done: seq<Disposition>, payloads: seq<OmiePayload>,
                 inserted: seq<InsertedRecord>, skippedExisting: seq<SkippedExisting>,
                 skippedNoRef: seq<SkippedNoRef>, errors: seq<ErrorRecord>,
                 sent: seq<Request<OmiePayload>>, d: Disposition, noRef: seq<SkippedNoRef>,
                 existing: seq<SkippedExisting>, added: seq<InsertedRecord>,
                 failures: seq<ErrorRecord>, request: Option<Request<OmiePayload>>)
    requires Walked(products, body, credentials, i, calls, done, payloads,
                    inserted, skippedExisting, skippedNoRef, errors, sent)
    requires i < |products| && body(products[i], calls) == Ok(d) && !Stops(d)
    requires Handled(credentials, d, noRef, existing, added, failures, request)
    ensures Walked(products, body, credentials, i + 1, if request.Some? then calls + 1 else calls, done + [d],
                   payloads + PayloadOf(d), inserted + added, skippedExisting + existing,
                   skippedNoRef + noRef, errors + failures,
                   if request.Some? then sent + [request.value] else sent)
  {
    ProgressNext(products, body, i, calls, done, d);
    Advance(done, d);
    RequestsOfAppend(credentials, payloads, PayloadOf(d));
    assert (done + [d])[|done + [d]| - 1] == d;
    if !d.Sent? {
      assert payloads + PayloadOf(d) == payloads;
    }
  }

  /** A disposition that stops the loop completes the run. */
  lemma WalkStops(products: seq<SpotProduct>, body: Body, credentials: Credentials, i: nat, calls: nat,
                  done: seq<Disposition>, payloads: seq<OmiePayload>,
                  inserted: seq<InsertedRecord>, skippedExisting: seq<SkippedExisting>,
                  skippedNoRef: seq<SkippedNoRef>, errors: seq<ErrorRecord>,
                  sent: seq<Request<OmiePayload>>, d: Disposition, noRef: seq<SkippedNoRef>,
                  existing: seq<SkippedExisting>, added: seq<InsertedRecord>,
                  failures: seq<ErrorRecord>, request: Option<Request<OmiePayload>>)
    requires Walked(products, body, credentials, i, calls, done, payloads,
                    inserted, skippedExisting, skippedNoRef, errors, sent)
    requires i < |products| && body(products[i], calls) == Ok(d) && Stops(d)
    requires Handled(credentials, d, noRef, existing, added, failures, request)
    ensures var t := Run(products, body, 0);
            && t.raised.None?
            && Collect(t.dispositions)
               == Tally(inserted + added, skippedExisting + existing, skippedNoRef + noRef,
                        errors + failures, true)
            && sent + [request.value] == RequestsOf(credentials, Gather(t.dispositions, PayloadOf))
  {
    ProgressStops(products, body, i, calls, done, d);
    CollectSnoc(done, d);
    Advance(done, d);
    RequestsOfAppend(credentials, payloads, PayloadOf(d));
  }

  /** A mapping error ends the run. */
  lemma WalkRaised(products: seq<SpotProduct>, body: Body, credentials: Credentials, i: nat, calls: nat,
                   done: seq<Disposition>, payloads: seq<OmiePayload>,
                   inserted: seq<InsertedRecord>, skippedExisting: seq<SkippedExisting>,
                   skippedNoRef: seq<SkippedNoRef>, errors: seq<ErrorRecord>,
                   sent: seq<Request<OmiePayload>>, e: MapError)
    requires Walked(products, body, credentials, i, calls, done, payloads,
                    inserted, skippedExisting, skippedNoRef, errors, sent)
    requires i < |products| && body(products[i], calls) == Err(e)
    ensures var t := Run(products, body, 0);
            && t.raised == Some(e)
            && sent == RequestsOf(credentials, Gather(t.dispositions, PayloadOf))
  {
    ProgressRaised(products, body, i, calls, done, e);
  }

  /** Once every product is handled, the run is complete and did not stop. */
  lemma WalkEnd(products: seq<SpotProduct>, body: Body, credentials: Credentials, calls: nat,
                done: seq<Disposition>, payloads: seq<OmiePayload>,
                inserted: seq<InsertedRecord>, skippedExisting: seq<SkippedExisting>,
                skippedNoRef: seq<SkippedNoRef>, errors: seq<ErrorRecord>,
                sent: seq<Request<OmiePayload>>)
    requires Walked(products, body, credentials, |products|, calls, done, payloads, inserted, skippedExisting,
                    skippedNoRef, errors, sent)
    ensures var t := Run(products, body, 0);
            && t.raised.None?
            && Collect(t.dispositions) == Tally(inserted, skippedExisting, skippedNoRef, errors, false)
            && sent == RequestsOf(credentials, Gather(t.dispositions, PayloadOf))
  {
    ProgressEnd(products, body, calls, done);
  }

  /** How one iteration of the loop ends. */
  datatype Visit = Continue | Stopped | Failed(error: MapError)

  /** Lines 43-99 of app/product_sync.py with the four lists: handle `products[i]` and
      append what it adds. The loop goes on, breaks on a fatal fault with the run complete,
      or fails with the mapping error the run raises. */
  method VisitProduct(products: seq<SpotProduct>, ctx: Context, i: nat, calls: nat,
                      ghost done: seq<Disposition>, ghost payloads: seq<OmiePayload>,
                      inserted: seq<InsertedRecord>, skippedExisting: seq<SkippedExisting>,
                      skippedNoRef: seq<SkippedNoRef>, errors: seq<ErrorRecord>,
                      sent: seq<Request<OmiePayload>>)
    returns (visit: Visit, calls': nat, ghost done': seq<Disposition>, ghost payloads': seq<OmiePayload>,
             inserted': seq<InsertedRecord>, skippedExisting': seq<SkippedExisting>,
             skippedNoRef': seq<SkippedNoRef>, errors': seq<ErrorRecord>,
             sent': seq<Request<OmiePayload>>)
    requires i < |products|
    requires Walked(products, BodyOf(ctx), ctx.credentials, i, calls, done, payloads,
                    inserted, skippedExisting, skippedNoRef, errors, sent)
    ensures visit.Continue? ==>
              Walked(products, BodyOf(ctx), ctx.credentials, i + 1, calls', done', payloads',
                     inserted', skippedExisting', skippedNoRef', errors', sent')
    ensures var t := Run(products, BodyOf(ctx), 0);
            && (visit.Failed? ==> t.raised == Some(visit.error))
            && (visit.Stopped? ==>
                  t.raised.None?
                  && Collect(t.dispositions)
                     == Tally(inserted', skippedExisting', skippedNoRef', errors', true))
            && (!visit.Continue? ==> sent' == RequestsOf(ctx.credentials, Gather(t.dispositions, PayloadOf)))
  {
    var body := BodyOf(ctx);
    var failed, noRef, existing, added, failures, request, fatal, d := HandleProduct(products[i], ctx, calls);
    calls', done', payloads', sent' := calls, done, payloads, sent;
    inserted', skippedExisting', skippedNoRef', errors' := inserted, skippedExisting, skippedNoRef, errors;
    if failed.Some? {
      WalkRaised(products, body, ctx.credentials, i, calls, done, payloads,
                 inserted, skippedExisting, skippedNoRef, errors, sent, failed.value);
      visit := Failed(failed.value);
      return;
    }
    if fatal {
      WalkStops(products, body, ctx.credentials, i, calls, done, payloads,
                inserted, skippedExisting, skippedNoRef, errors, sent,
                d, noRef, existing, added, failures, request);
      visit := Stopped;
    } else {
      WalkNext(products, body, ctx.credentials, i, calls, done, payloads,
               inserted, skippedExisting, skippedNoRef, errors, sent,
               d, noRef, existing, added, failures, request);
      visit := Continue;
    }
    skippedNoRef', skippedExisting' := skippedNoRef + noRef, skippedExisting + existing;
    inserted', errors' := inserted + added, errors + failures;
    if request.Some? {
      sent' := sent + [request.value];
      calls' := calls + 1;
    }
    done', payloads' := done + [d], payloads + PayloadOf(d);
  }

  /** Lines 42-101 of app/product_sync.py: walk the products in order, filling the four
      lists, until the end, a fatal fault (which sets `fatal_error` and breaks out), or a
      mapping error, which escapes. */
  method ProcessProducts(products: seq<SpotProduct>, ctx: Context)
    returns (r: Result<Tally, MapError>, sent: seq<Request<OmiePayload>>)
    ensures var t := Run(products, BodyOf(ctx), 0);
            r == if t.raised.Some? then Err(t.raised.value) else Ok(Collect(t.dispositions))
    ensures sent == RequestsOf(ctx.credentials, Gather(Run(products, BodyOf(ctx), 0).dispositions, PayloadOf))
  {
    sent := [];
    var inserted: seq<InsertedRecord> := [];
    var skippedExisting: seq<SkippedExisting> := [];
    var skippedNoRef: seq<SkippedNoRef> := [];
    var errors: seq<ErrorRecord> := [];
    var fatalError := false;
    ghost var done: seq<Disposition> := [];
    ghost var payloads: seq<OmiePayload> := [];
    var calls: nat := 0;
    WalkStart(products, BodyOf(ctx), ctx.credentials);
    var i := 0;
    while i < |products|
      invariant i <= |products|
      invariant Walked(products, BodyOf(ctx), ctx.credentials, i, calls, done, payloads,
                       inserted, skippedExisting, skippedNoRef, errors, sent)
    {
      var visit;
      visit, calls, done, payloads, inserted, skippedExisting, skippedNoRef, errors, sent :=
        VisitProduct(products, ctx, i, calls, done, payloads,
                     inserted, skippedExisting, skippedNoRef, errors, sent);
      match visit
      case Failed(e) =>
        r := Err(e);
        return;
      case Stopped =>
        fatalError := true;
        break;
      case Continue =>
        i := i + 1;
    }
    if !fatalError {
      WalkEnd(products, BodyOf(ctx), ctx.credentials, calls, done, payloads,
              inserted, skippedExisting, skippedNoRef, errors, sent);
    }
    r := Ok(Tally(inserted, skippedExisting, skippedNoRef, errors, fatalError));
  }

  /** The lists after one more disposition. */
  lemma Advance(done: seq<Disposition>, d: Disposition)
    ensures Gather(done + [d], InsertedOf) == Gather(done, InsertedOf) + InsertedOf(d)
    ensures Gather(done + [d], ExistingOf) == Gather(done, ExistingOf) + ExistingOf(d)
    ensures Gather(done + [d], NoRefOf) == Gather(done, NoRefOf) + NoRefOf(d)
    ensures Gather(done + [d], ErrorsOf) == Gather(done, ErrorsOf) + ErrorsOf(d)
    ensures Gather(done + [d], PayloadOf) == Gather(done, PayloadOf) + PayloadOf(d)
  {
    GatherSnoc(done, d, InsertedOf);
    GatherSnoc(done, d, ExistingOf);
    GatherSnoc(done, d, NoRefOf);
    GatherSnoc(done, d, ErrorsOf);
    GatherSnoc(done, d, PayloadOf);
  }

  /** The tally after one more disposition; its `fatal` flag is whether that one stops. */
  lemma CollectSnoc(done: seq<Disposition>, d: Disposition)
    ensures Collect(done + [d])
            == Tally(Gather(done, InsertedOf) + InsertedOf(d), Gather(done, ExistingOf) + ExistingOf(d),
                     Gather(done, NoRefOf) + NoRefOf(d), Gather(done, ErrorsOf) + ErrorsOf(d), Stops(d))
  {
    Advance(done, d);
    assert (done + [d])[|done + [d]| - 1] == d;
  }

  /** `sync_products` (lines 12-101 of app/product_sync.py): read the existing codes, select
      the products and walk them with `MapSpotToOmie`; a bad listing or a mapping error
      escapes. */
  method SyncProducts(products: seq<SpotProduct>, listing: seq<Json>, credentials: Credentials,
                      dryRun: bool, previewCount: Option<int>,
                      transport: (nat, Request<OmiePayload>) -> HttpReply)
    returns (r: Result<Tally, SyncError>, sent: seq<Request<OmiePayload>>)
    ensures r == Sync(products, listing, credentials, dryRun, previewCount, transport).outcome
    ensures sent == Sync(products, listing, credentials, dryRun, previewCount, transport).sent
  {
    sent := [];
    var codes := ExistingCodes(listing);
    if codes.Err? {
      r := Err(codes.error);
      return;
    }
    var selected := products;
    if previewCount.Some? {
      selected := SliceTo(products, previewCount.value);
    }
    var ctx := Context(credentials, codes.value, dryRun, transport, MapSpotToOmie);
    var outcome;
    outcome, sent := ProcessProducts(selected, ctx);
    match outcome
    case Err(e) => r := Err(MapFailed(e));
    case Ok(tally) => r := Ok(tally);
  }
}
