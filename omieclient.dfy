/** The OMIE API client: the call envelope, the interpretation of the reply to a
    product insertion, and the paginated product listing. The HTTP transport is an
    input: one `HttpReply` per request, in the order the requests are made. */
module OmieClient {
  import opened PyValues
  import opened SpotMapper

  /** The endpoint every call is posted to. */
  const ProductsUrl: string := "https://app.omie.com.br/api/v1/geral/produtos/"

  /** The two constructor arguments the client keeps. */
  datatype Credentials = Credentials(appKey: string, appSecret: string)

  /** `_build_auth_payload`: the credentials under the keys OMIE expects. */
  function AuthPayload(c: Credentials): (r: map<string, string>)
    ensures r.Keys == {"app_key", "app_secret"}
    ensures r["app_key"] == c.appKey && r["app_secret"] == c.appSecret
  {
    map["app_key" := c.appKey, "app_secret" := c.appSecret]
  }

  /** A JSON-RPC style call: the authentication fields, the call name and the
      parameter list. */
  datatype Request<P> = Request(auth: map<string, string>, call: string, param: seq<P>)

  /** The single parameter record of `ListarProdutos`. */
  datatype ListParams = ListParams(
    pagina: int,
    registrosPorPagina: int,
    apenasImportadoApi: string,
    filtrarApenasOmiepdv: string)

  /** The request for one page of the listing. */
  function ListRequest(c: Credentials, page: int, pageSize: int): (r: Request<ListParams>)
    ensures r.auth == AuthPayload(c) && r.call == "ListarProdutos"
    ensures r.param == [ListParams(page, pageSize, "S", "N")]
  {
    Request(AuthPayload(c), "ListarProdutos", [ListParams(page, pageSize, "S", "N")])
  }

  /** The request that registers one product. */
  function InsertRequest(c: Credentials, product: OmiePayload): (r: Request<OmiePayload>)
    ensures r.auth == AuthPayload(c) && r.call == "IncluirProduto" && r.param == [product]
  {
    Request(AuthPayload(c), "IncluirProduto", [product])
  }

  /** What the transport hands back for one request: a status line and a body that
      either decodes as JSON or fails to (with the decoder's message), or no reply at
      all because the connection failed. */
  datatype HttpReply =
    | Reply(status: int, reason: string, body: Result<Json, string>)
    | ConnectionFailure(message: string)

  /** `raise_for_status` raises for client (4xx) and server (5xx) errors. */
  predicate RaisesForStatus(status: int)
  {
    400 <= status < 600
  }

  /** The exceptions `insert_product` lets escape. */
  datatype InsertError =
    | ConnectionFailed(message: string)
    | HttpStatusError(status: int, reason: string)
    | DecodeFailed(message: string)
    | NoGetMethod(typeName: string)

  /** A body marks an application fault when `faultstring` or `faultcode` is truthy. */
  predicate IsFault(body: map<string, Json>)
  {
    Truthy(Get(body, "faultstring")) || Truthy(Get(body, "faultcode"))
  }

  /** `insert_product`: the body is examined before the status, so a fault body is
      returned even with an error status; otherwise an error status raises, and a body
      that does not decode raises (an `HTTPError` when the status is an error, the
      decoding error otherwise). A decoded body that is not an object has no `get`. */
  function InsertProduct(reply: HttpReply): (r: Result<map<string, Json>, InsertError>)
    ensures r.Ok? <==> reply.Reply? && reply.body.Ok? && reply.body.value.JObj?
                       && (IsFault(reply.body.value.fields) || !RaisesForStatus(reply.status))
    ensures r.Ok? ==> r.value == reply.body.value.fields
    ensures reply.Reply? && reply.body.Ok? && reply.body.value.JObj? && IsFault(reply.body.value.fields)
            ==> r.Ok?
    ensures reply.Reply? && reply.body.Ok? && reply.body.value.JObj?
            && !IsFault(reply.body.value.fields) && RaisesForStatus(reply.status)
            ==> r == Err(HttpStatusError(reply.status, reply.reason))
    ensures reply.Reply? && reply.body.Err? ==>
              r == if RaisesForStatus(reply.status) then Err(HttpStatusError(reply.status, reply.reason))
                   else Err(DecodeFailed(reply.body.error))
    ensures reply.Reply? && reply.body.Ok? && !reply.body.value.JObj? ==>
              r == Err(NoGetMethod(TypeName(reply.body.value)))
    ensures reply.ConnectionFailure? ==> r == Err(ConnectionFailed(reply.message))
  {
    match reply
    case ConnectionFailure(m) => Err(ConnectionFailed(m))
    case Reply(status, reason, body) =>
      match body
      case Err(m) =>
        if RaisesForStatus(status) then Err(HttpStatusError(status, reason)) else Err(DecodeFailed(m))
      case Ok(j) =>
        if !j.JObj? then Err(NoGetMethod(TypeName(j)))
        else if IsFault(j.fields) then Ok(j.fields)
        else if RaisesForStatus(status) then Err(HttpStatusError(status, reason))
        else Ok(j.fields)
  }

  /** A successful insertion: a fault-free object body with a success status is
      handed back exactly as decoded. */
  lemma InsertReturnsBody(status: int, reason: string, body: map<string, Json>)
    requires !IsFault(body) && !RaisesForStatus(status)
    ensures InsertProduct(Reply(status, reason, Ok(JObj(body)))) == Ok(body)
  {
  }

  /** A reply whose body cannot be decoded never yields a value, whatever its status. */
  lemma UndecodableNeverReturns(status: int, reason: string, message: string)
    ensures InsertProduct(Reply(status, reason, Err(message))).Err?
  {
  }

  /** The str() of each error `insert_product` raises. */
  function InsertErrorText(e: InsertError): string
  {
    match e
    case ConnectionFailed(m) => m
    case HttpStatusError(status, reason) =>
      (if status < 0 then "-" + NatToString(-status) else NatToString(status))
      + (if status < 500 then " Client Error: " else " Server Error: ")
      + reason + " for url: " + ProductsUrl
    case DecodeFailed(m) => m
    case NoGetMethod(t) => "'" + t + "' object has no attribute 'get'"
  }

  /** The exceptions `list_products` lets escape (an `HTTPError` is caught). */
  datatype ListError =
    | ListConnectionFailed(message: string)
    | ListDecodeFailed(message: string)
    | ListNoGetMethod(typeName: string)
    | NotSubscriptable(typeName: string)
    | NotIterable(typeName: string)
    | MissingKeyZero
    | NotComparable(typeName: string)

  /** What `all_products.extend(products)` adds for the value found under
      `produto_servico_cadastro`, after the first element has been read when the value
      is truthy: a list adds its items, a string its characters, an empty object
      nothing; a non-empty object has no element 0, a truthy number cannot be indexed,
      and a falsy non-container cannot be iterated. */
  function PageItems(products: Json): (r: Result<seq<Json>, ListError>)
    ensures products.JArr? ==> r == Ok(products.items)
    ensures products.JStr? ==>
              r == Ok(seq(|products.s|, k requires 0 <= k < |products.s| => JStr([products.s[k]])))
    ensures products == JObj(map[]) ==> r == Ok([])
    ensures r.Err? <==> products.JNull? || products.JBool? || products.JNum?
                        || (products.JObj? && products.fields != map[])
  {
    match products
    case JNull => Err(NotIterable("NoneType"))
    case JBool(b) => if b then Err(NotSubscriptable("bool")) else Err(NotIterable("bool"))
    case JNum(n) => if n != 0 then Err(NotSubscriptable("int")) else Err(NotIterable("int"))
    case JStr(s) => Ok(seq(|s|, k requires 0 <= k < |s| => JStr([s[k]])))
    case JArr(items) => Ok(items)
    case JObj(fields) => if fields == map[] then Ok([]) else Err(MissingKeyZero)
  }

  /** `data.get("total_de_paginas", 1)` as the right operand of `page >= ...`: a
      number (a bool counting as 0 or 1), the default 1 when the key is missing, and
      a type error for anything else. */
  function TotalPages(data: map<string, Json>): (r: Result<int, ListError>)
    ensures "total_de_paginas" !in data ==> r == Ok(1)
    ensures "total_de_paginas" in data && data["total_de_paginas"].JNum? ==>
              r == Ok(data["total_de_paginas"].n)
    ensures "total_de_paginas" in data && data["total_de_paginas"].JBool? ==>
              r == Ok(if data["total_de_paginas"].b then 1 else 0)
    ensures r.Err? <==> "total_de_paginas" in data && !data["total_de_paginas"].JNum?
                        && !data["total_de_paginas"].JBool?
  {
    match GetOr(data, "total_de_paginas", JNum(1))
    case JNum(n) => Ok(n)
    case JBool(b) => Ok(if b then 1 else 0)
    case other => Err(NotComparable(TypeName(other)))
  }

  /** What one iteration of the listing loop does with the reply for `page`. */
  datatype PageOutcome =
    | NextPage(items: seq<Json>)
    | LastPage(items: seq<Json>)
    | HttpStop
    | Raised(error: ListError)

  /** A reply with a success status whose body decodes to an object. */
  predicate Readable(reply: HttpReply)
  {
    reply.Reply? && !RaisesForStatus(reply.status) && reply.body.Ok? && reply.body.value.JObj?
  }

  /** `data.get("produto_servico_cadastro", [])`. */
  function ProductsField(data: map<string, Json>): Json
  {
    GetOr(data, "produto_servico_cadastro", JArr([]))
  }

  /** One iteration of the loop: the status is checked before the body is decoded; an
      error status ends the listing quietly; otherwise the page's products are added
      and the loop goes on while `page` is below `total_de_paginas`. A body that does
      not decode, is not an object, or holds a product list or total that cannot be
      used raises. */
  function PageStep(page: int, reply: HttpReply): (r: PageOutcome)
    ensures reply.ConnectionFailure? ==> r == Raised(ListConnectionFailed(reply.message))
    ensures reply.Reply? && RaisesForStatus(reply.status) ==> r == HttpStop
    ensures r.HttpStop? ==> reply.Reply? && RaisesForStatus(reply.status)
    ensures reply.Reply? && !RaisesForStatus(reply.status) && reply.body.Err? ==>
              r == Raised(ListDecodeFailed(reply.body.error))
    ensures reply.Reply? && !RaisesForStatus(reply.status) && reply.body.Ok? && !reply.body.value.JObj? ==>
              r == Raised(ListNoGetMethod(TypeName(reply.body.value)))
    ensures Readable(reply) ==>
              var data := reply.body.value.fields;
              match PageItems(ProductsField(data))
              case Err(e) => r == Raised(e)
              case Ok(items) =>
                match TotalPages(data)
                case Err(e) => r == Raised(e)
                case Ok(total) => (r.NextPage? || r.LastPage?) && r.items == items
                                  && (r.LastPage? <==> page >= total)
    ensures r.NextPage? || r.LastPage? ==>
              && Readable(reply)
              && PageItems(ProductsField(reply.body.value.fields)) == Ok(r.items)
              && TotalPages(reply.body.value.fields).Ok?
              && (r.LastPage? <==> page >= TotalPages(reply.body.value.fields).value)
  {
    match reply
    case ConnectionFailure(m) => Raised(ListConnectionFailed(m))
    case Reply(status, _, body) =>
      if RaisesForStatus(status) then HttpStop
      else
        match body
        case Err(m) => Raised(ListDecodeFailed(m))
        case Ok(j) =>
          if !j.JObj? then Raised(ListNoGetMethod(TypeName(j)))
          else
            match PageItems(ProductsField(j.fields))
            case Err(e) => Raised(e)
            case Ok(items) =>
              match TotalPages(j.fields)
              case Err(e) => Raised(e)
              case Ok(total) => if page >= total then LastPage(items) else NextPage(items)
  }

  /** A page without the product list contributes nothing and does not fail. */
  lemma MissingListCountsEmpty(page: int, data: map<string, Json>)
    requires "produto_servico_cadastro" !in data && "total_de_paginas" !in data
    ensures PageStep(page, Reply(200, "OK", Ok(JObj(data)))) ==
            if page >= 1 then LastPage([]) else NextPage([])
  {
  }

  /** The outcome of a whole listing and the number of pages it requested. */
  datatype Listed = Listed(result: Result<seq<Json>, ListError>, pagesRequested: nat)

  /** The listing from `page` on, given the replies to the requests in order; `None`
      when the replies run out before the loop would stop. */
  function Listing(page: int, replies: seq<HttpReply>): (r: Option<Listed>)
    ensures r.Some? ==> 1 <= r.value.pagesRequested <= |replies|
    decreases |replies|
  {
    if replies == [] then None
    else
      match PageStep(page, replies[0])
      case NextPage(items) =>
        (match Listing(page + 1, replies[1..])
         case None => None
         case Some(rest) => Some(Listed(Prepend(items, rest.result), rest.pagesRequested + 1)))
      case LastPage(items) => Some(Listed(Ok(items), 1))
      case HttpStop => Some(Listed(Ok([]), 1))
      case Raised(e) => Some(Listed(Err(e), 1))
  }

  function Prepend(items: seq<Json>, r: Result<seq<Json>, ListError>): Result<seq<Json>, ListError>
  {
    match r
    case Ok(rest) => Ok(items + rest)
    case Err(e) => Err(e)
  }

  lemma PrependNothing(r: Result<seq<Json>, ListError>)
    ensures Prepend([], r) == r
  {
    if r.Ok? {
      assert [] + r.value == r.value;
    }
  }

  /** The listing stops within the replies given to it. */
  predicate Terminates(page: int, replies: seq<HttpReply>)
  {
    Listing(page, replies).Some?
  }

  /** Every one of the first `k` pages asked for the next. */
  predicate ContinuesThrough(page: int, replies: seq<HttpReply>, k: nat)
  {
    k <= |replies| && forall j :: 0 <= j < k ==> PageStep(page + j, replies[j]).NextPage?
  }

  /** The products of the first `k` pages, in page order. */
  function ItemsBefore(page: int, replies: seq<HttpReply>, k: nat): seq<Json>
    requires ContinuesThrough(page, replies, k)
    decreases k
  {
    if k == 0 then []
    else PageStep(page, replies[0]).items + ItemsBefore(page + 1, replies[1..], k - 1)
  }

  /** How the listing ends, given the products gathered before the last page. */
  function Finish(gathered: seq<Json>, last: PageOutcome): Result<seq<Json>, ListError>
  {
    match last
    case LastPage(items) => Ok(gathered + items)
    case NextPage(items) => Ok(gathered + items)
    case HttpStop => Ok(gathered)
    case Raised(e) => Err(e)
  }

  /** Prepending two item lists in turn prepends their concatenation. */
  lemma PrependAppend(items: seq<Json>, more: seq<Json>, r: Result<seq<Json>, ListError>)
    ensures Prepend(items, Prepend(more, r)) == Prepend(items + more, r)
  {
    if r.Ok? {
      assert items + (more + r.value) == (items + more) + r.value;
    }
  }

  /** A page that continues: the listing is its products followed by the listing of
      the next page. */
  lemma ListingNext(page: int, replies: seq<HttpReply>)
    requires replies != [] && PageStep(page, replies[0]).NextPage?
    ensures Listing(page, replies).Some? <==> Listing(page + 1, replies[1..]).Some?
    ensures Listing(page, replies).Some? ==>
              Listing(page, replies).value
              == Listed(Prepend(PageStep(page, replies[0]).items,
                                Listing(page + 1, replies[1..]).value.result),
                        Listing(page + 1, replies[1..]).value.pagesRequested + 1)
  {
  }

  /** Pages go on while they say so: once `k` pages have all continued, the listing is
      their products followed by the listing from page `page + k`. */
  lemma {:induction false} ListingAfter(page: int, replies: seq<HttpReply>, k: nat)
    requires ContinuesThrough(page, replies, k)
    ensures Listing(page, replies).Some? <==> Listing(page + k, replies[k..]).Some?
    ensures Listing(page, replies).Some? ==>
              && Listing(page, replies).value.result
                 == Prepend(ItemsBefore(page, replies, k), Listing(page + k, replies[k..]).value.result)
              && Listing(page, replies).value.pagesRequested
                 == k + Listing(page + k, replies[k..]).value.pagesRequested
    decreases k
  {
    if k == 0 {
      assert replies[0..] == replies;
      if Listing(page, replies).Some? {
        PrependNothing(Listing(page, replies).value.result);
      }
    } else {
      ContinuesTail(page, replies, k);
      ListingNext(page, replies);
      ListingAfter(page + 1, replies[1..], k - 1);
      assert replies[1..][k - 1..] == replies[k..];
      assert page + 1 + (k - 1) == page + k;
      var rest := Listing(page + k, replies[k..]);
      if rest.Some? {
        PrependAppend(PageStep(page, replies[0]).items, ItemsBefore(page + 1, replies[1..], k - 1),
                      rest.value.result);
      }
    }
  }

  /** The listing, page by page: when the first `k` pages continue and page `k` does
      not, page `k` is the last one requested; the result is the products of all
      pages fetched, in order, and an HTTP error on page `k` keeps those of the
      earlier pages. */
  lemma StopsAt(page: int, replies: seq<HttpReply>, k: nat)
    requires ContinuesThrough(page, replies, k) && k < |replies|
    requires !PageStep(page + k, replies[k]).NextPage?
    ensures Listing(page, replies)
            == Some(Listed(Finish(ItemsBefore(page, replies, k), PageStep(page + k, replies[k])), k + 1))
  {
    ListingAfter(page, replies, k);
    assert replies[k..][0] == replies[k];
    var gathered := ItemsBefore(page, replies, k);
    match PageStep(page + k, replies[k])
    case LastPage(items) =>
      assert Prepend(gathered, Ok(items)) == Finish(gathered, LastPage(items));
    case HttpStop =>
      assert gathered + [] == gathered;
    case Raised(e) =>
  }

  lemma ContinuesTail(page: int, replies: seq<HttpReply>, k: nat)
    requires k > 0 && ContinuesThrough(page, replies, k)
    ensures PageStep(page, replies[0]).NextPage? && ContinuesThrough(page + 1, replies[1..], k - 1)
  {
    assert PageStep(page + 0, replies[0]).NextPage?;
    forall j | 0 <= j < k - 1
      ensures PageStep(page + 1 + j, replies[1..][j]).NextPage?
    {
      assert PageStep(page + (j + 1), replies[j + 1]).NextPage?;
    }
  }

  lemma ContinuesCons(page: int, replies: seq<HttpReply>, k: nat)
    requires replies != [] && PageStep(page, replies[0]).NextPage?
    requires ContinuesThrough(page + 1, replies[1..], k)
    ensures ContinuesThrough(page, replies, k + 1)
  {
    forall j | 0 <= j < k + 1
      ensures PageStep(page + j, replies[j]).NextPage?
    {
      if j > 0 {
        assert PageStep(page + 1 + (j - 1), replies[1..][j - 1]).NextPage?;
      }
    }
  }

  /** A listing that stops has a first page that does not continue. */
  lemma {:induction false} StopPageExists(page: int, replies: seq<HttpReply>)
    requires Terminates(page, replies)
    ensures exists k: nat | k < |replies| ::
              ContinuesThrough(page, replies, k) && !PageStep(page + k, replies[k]).NextPage?
    decreases |replies|
  {
    if PageStep(page, replies[0]).NextPage? {
      StopPageExists(page + 1, replies[1..]);
      var k: nat :| k < |replies[1..]| && ContinuesThrough(page + 1, replies[1..], k)
                   && !PageStep(page + 1 + k, replies[1..][k]).NextPage?;
      ContinuesCons(page, replies, k);
      assert page + (k + 1) == page + 1 + k && replies[k + 1] == replies[1..][k];
    } else {
      assert ContinuesThrough(page, replies, 0);
      assert !PageStep(page + 0, replies[0]).NextPage?;
    }
  }

  /** A listing that stops stops at exactly one page: the first that does not
      continue. */
  lemma TerminatesIff(page: int, replies: seq<HttpReply>)
    ensures Terminates(page, replies) <==>
            exists k: nat | k < |replies| ::
              ContinuesThrough(page, replies, k) && !PageStep(page + k, replies[k]).NextPage?
  {
    if Terminates(page, replies) {
      StopPageExists(page, replies);
    } else if exists k: nat | k < |replies| ::
                ContinuesThrough(page, replies, k) && !PageStep(page + k, replies[k]).NextPage? {
      var k: nat :| k < |replies| && ContinuesThrough(page, replies, k)
                   && !PageStep(page + k, replies[k]).NextPage?;
      StopsAt(page, replies, k);
    }
  }

  /** An HTTP error on the very first page lists nothing and requests nothing more. */
  lemma FirstPageHttpError(page: int, replies: seq<HttpReply>)
    requires replies != [] && replies[0].Reply? && RaisesForStatus(replies[0].status)
    ensures Listing(page, replies) == Some(Listed(Ok([]), 1))
  {
  }

  /** The state of the page loop before reply `i`: page `current` is next, the items
      of the earlier pages are collected, and the whole listing is those items
      followed by the listing from `current` on. */
  ghost predicate Paged(page: int, replies: seq<HttpReply>, i: nat, current: int, allProducts: seq<Json>)
  {
    && i == current - page && i < |replies|
    && Terminates(page, replies) && Terminates(current, replies[i..])
    && var rest := Listing(current, replies[i..]).value;
       Listing(page, replies).value == Listed(Prepend(allProducts, rest.result), i + rest.pagesRequested)
  }

  lemma PagedStart(page: int, replies: seq<HttpReply>)
    requires Terminates(page, replies)
    ensures Paged(page, replies, 0, page, [])
  {
    assert replies[0..] == replies;
    PrependNothing(Listing(page, replies).value.result);
  }

  /** A page that is not the last moves the loop on to the next one. */
  lemma PagedNext(page: int, replies: seq<HttpReply>, i: nat, current: int, allProducts: seq<Json>,
                  items: seq<Json>)
    requires Paged(page, replies, i, current, allProducts)
    requires PageStep(current, replies[i]) == NextPage(items)
    ensures Paged(page, replies, i + 1, current + 1, allProducts + items)
  {
    assert replies[i..][0] == replies[i] && replies[i..][1..] == replies[i + 1..];
    PrependAppend(allProducts, items, Listing(current + 1, replies[i + 1..]).value.result);
  }

  /** Any other outcome of a page ends the listing with that page. */
  lemma PagedEnds(page: int, replies: seq<HttpReply>, i: nat, current: int, allProducts: seq<Json>)
    requires Paged(page, replies, i, current, allProducts)
    requires !PageStep(current, replies[i]).NextPage?
    ensures Listing(page, replies).value.pagesRequested == i + 1
    ensures PageStep(current, replies[i]).Raised? ==>
              Listing(page, replies).value.result == Err(PageStep(current, replies[i]).error)
    ensures PageStep(current, replies[i]).HttpStop? ==> Listing(page, replies).value.result == Ok(allProducts)
    ensures PageStep(current, replies[i]).LastPage? ==>
              Listing(page, replies).value.result == Ok(allProducts + PageStep(current, replies[i]).items)
  {
    assert replies[i..][0] == replies[i];
    assert allProducts + [] == allProducts;
  }

  /** How one page ends an iteration of the page loop: the loop goes on with the
      page's products, or the listing is over with its result. */
  datatype PageVisit = More(items: seq<Json>) | Done(result: Result<seq<Json>, ListError>)

  /** One iteration of the page loop in `list_products` (lines 37-60 of
      app/omie_client.py): read reply `i`, for page `current`. A page that asks for the
      next one moves the loop state on; any other page ends the listing. */
  method VisitPage(page: int, replies: seq<HttpReply>, i: nat, current: int, allProducts: seq<Json>)
    returns (visit: PageVisit)
    requires Paged(page, replies, i, current, allProducts)
    ensures visit.More? ==> Paged(page, replies, i + 1, current + 1, allProducts + visit.items)
    ensures visit.Done? ==>
              && Listing(page, replies).value.result == visit.result
              && Listing(page, replies).value.pagesRequested == i + 1
  {
    var step := PageStep(current, replies[i]);
    if step.NextPage? {
      PagedNext(page, replies, i, current, allProducts, step.items);
      visit := More(step.items);
      return;
    }
    PagedEnds(page, replies, i, current, allProducts);
    match step {
      case Raised(e) =>
        visit := Done(Err(e));
      case HttpStop =>
        visit := Done(Ok(allProducts));
      case LastPage(items) =>
        visit := Done(Ok(allProducts + items));
    }
  }

  /** The requests are for pages `page`, `page + 1`, ... in that order. */
  predicate AsksPagesFrom(c: Credentials, page: int, pageSize: int, requests: seq<Request<ListParams>>)
  {
    forall k :: 0 <= k < |requests| ==> requests[k] == ListRequest(c, page + k, pageSize)
  }

  lemma AsksNextPage(c: Credentials, page: int, pageSize: int, requests: seq<Request<ListParams>>)
    requires AsksPagesFrom(c, page, pageSize, requests)
    ensures AsksPagesFrom(c, page, pageSize, requests + [ListRequest(c, page + |requests|, pageSize)])
  {
  }

  /** `list_products`: requests pages `page`, `page + 1`, ... and gathers their
      products until a page at or past `total_de_paginas`, an HTTP error (which keeps
      what was gathered) or an exception (which loses it). */
  method ListProducts(c: Credentials, page: int, pageSize: int, replies: seq<HttpReply>)
    returns (r: Result<seq<Json>, ListError>, requests: seq<Request<ListParams>>)
    requires Terminates(page, replies)
    ensures r == Listing(page, replies).value.result
    ensures |requests| == Listing(page, replies).value.pagesRequested
    ensures forall k :: 0 <= k < |requests| ==> requests[k] == ListRequest(c, page + k, pageSize)
  {
    var allProducts: seq<Json> := [];
    var current := page;
    var i := 0;
    requests := [];
    PagedStart(page, replies);
    while true
      invariant Paged(page, replies, i, current, allProducts)
      invariant |requests| == i
      invariant AsksPagesFrom(c, page, pageSize, requests)
      decreases |replies| - i
    {
      AsksNextPage(c, page, pageSize, requests);
      requests := requests + [ListRequest(c, current, pageSize)];
      var visit := VisitPage(page, replies, i, current, allProducts);
      if visit.Done? {
        r := visit.result;
        return;
      }
      allProducts := allProducts + visit.items;
      current := current + 1;
      i := i + 1;
    }
  }
}
