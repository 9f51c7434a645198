/** The relay in web/middleware/discount-code-api.js: how a discount lookup
    is classified as a code discount or an automatic one, how the lookup and
    detail queries are addressed, and how the four submission routes turn a
    request body into one GraphQL mutation. The Shopify session store and the
    GraphQL client are parameters: a session is an `Option`, and the platform
    is a function from the request the relay issues to the body it answers. */
module DiscountCodeApi {
  import opened Wrappers
  import opened Occurrence
  import opened JsValues

  /** The three answers of `IsDiscountCode`: `null` (the lookup has not
      produced an id yet), `true` (a code discount), `false` (automatic). */
  datatype Kind = Pending | Code | Automatic

  /** How the GET response echoes a kind in its `isDiscountCode` member. */
  function KindValue(k: Kind): (v: Js)
    ensures k == Pending <==> v == Null
    ensures !Nullish(v) ==> v.Bool?
    ensures Truthy(v) <==> k == Code
    ensures k == Automatic <==> v == Bool(false)
  {
    match k
    case Pending => Null
    case Code => Bool(true)
    case Automatic => Bool(false)
  }

  /** The substring whose position decides the classification. */
  const Marker: string := "Code"

  /** The decision `IsDiscountCode` takes once it holds the node id. */
  function ClassifyId(id: Js): (k: Kind)
    ensures k == Pending <==> Nullish(id)
    ensures k == Code <==>
      !Nullish(id) && !OccursAt(ToStr(id), Marker, 0) && Occurs(ToStr(id), Marker)
  {
    if Nullish(id) then Pending
    else if IndexOf(ToStr(id), Marker) > 0 then Code
    else Automatic
  }

  /** `IsDiscountCode(discounts)`: reads `discounts?.data.discountNode.id` and
      classifies it. Optional chaining guards only `discounts` itself, so a
      body without `data`, or whose `discountNode` is null, raises. */
  function IsDiscountCode(discounts: Js): (r: Result<Kind>)
    ensures Nullish(discounts) ==> r == Ok(Pending)
    ensures r.Err? <==>
      !Nullish(discounts) &&
      (Nullish(OptProp(discounts, "data")) ||
       Nullish(OptProp(OptProp(discounts, "data"), "discountNode")))
    ensures r.Err? ==> r.fault == TypeError
    ensures r.Ok? && !Nullish(discounts) ==>
      r.value == ClassifyId(OptProp(OptProp(OptProp(discounts, "data"), "discountNode"), "id"))
  {
    if Nullish(discounts) then Ok(Pending)
    else
      var data := Prop(discounts, "data").value;
      match Prop(data, "discountNode")
      case Err(f) => Err(f)
      case Ok(node) =>
        match Prop(node, "id")
        case Err(f) => Err(f)
        case Ok(id) => Ok(ClassifyId(id))
  }

  /** The shape of a successful lookup answer: `{data: {discountNode: {id}}}`. */
  function LookupBody(id: Js): Js
  {
    Obj(map["data" := Obj(map["discountNode" := Obj(map["id" := id])])])
  }

  /** On a well-formed lookup answer the result is `null` exactly when the id
      is null or undefined, and otherwise `true` exactly when the first
      `Code` in `String(id)` sits after index 0. */
  lemma IsDiscountCodeOfLookup(id: Js)
    ensures IsDiscountCode(LookupBody(id)) == Ok(ClassifyId(id))
    ensures IsDiscountCode(LookupBody(id)) == Ok(Pending) <==> Nullish(id)
    ensures IsDiscountCode(LookupBody(id)) == Ok(Code) <==>
      !Nullish(id) && IndexOf(ToStr(id), Marker) > 0
  {
  }

  /** An id that begins with `Code` is automatic, however often `Code` recurs. */
  lemma {:induction false} LeadingMarkerIsAutomatic(rest: string)
    ensures ClassifyId(Str(Marker + rest)) == Automatic
  {
    assert OccursAt(Marker + rest, Marker, 0) by {
      assert (Marker + rest)[0..|Marker|] == Marker;
    }
  }

  /** Booleans and numbers never render a `C`, so they never classify as code. */
  lemma {:induction false} ScalarIdIsAutomatic(id: Js)
    requires id.Bool? || id.Num?
    ensures ClassifyId(id) == Automatic
  {
    var s := ToStr(id);
    if id.Num? {
      DecimalHasNoLetter(id.n, 'C');
    }
    assert 'C' !in s;
    forall i
      ensures !OccursAt(s, Marker, i)
    {
      if 0 <= i && i + |Marker| <= |s| {
        assert s[i..i + |Marker|][0] == s[i];
      }
    }
  }

  /** The GraphQL documents the relay sends; their text is not modelled,
      only that they are seven distinct constants. */
  datatype Operation =
    | CreateCodeMutation
    | UpdateCodeMutation
    | CreateAutomaticMutation
    | UpdateAutomaticMutation
    | DiscountQuery
    | DiscountCodeQuery
    | DiscountAutomaticQuery

  /** The `key` and `discount_type` chosen for a lookup query. */
  datatype Target = Target(key: string, discountType: string)

  /** `runDiscountQuery`'s choice of key and node type: the generic lookup and
      the code query have their own pair, every other document falls back to
      the automatic pair. */
  function QueryTarget(q: Operation): (t: Target)
    ensures q == DiscountQuery <==> t == Target("Discount", "DiscountNode")
    ensures q == DiscountCodeQuery <==> t == Target("CodeDiscount", "DiscountCodeNode")
    ensures q != DiscountQuery && q != DiscountCodeQuery <==>
      t == Target("AutomaticDiscount", "DiscountAutomaticNode")
  {
    if q == DiscountQuery then Target("Discount", "DiscountNode")
    else if q == DiscountCodeQuery then Target("CodeDiscount", "DiscountCodeNode")
    else Target("AutomaticDiscount", "DiscountAutomaticNode")
  }

  const GidPrefix: string := "gid://shopify/"

  /** The global id a lookup asks for: `gid://shopify/<type>/<param>`. */
  function Gid(discountType: string, param: string): string
  {
    GidPrefix + discountType + "/" + param
  }

  /** Splits a global id back into its node type and its trailing parameter. */
  function ParseGid(s: string): Option<(string, string)>
  {
    if |s| < |GidPrefix| || s[..|GidPrefix|] != GidPrefix then None
    else
      var rest := s[|GidPrefix|..];
      var slash := IndexOf(rest, "/");
      if slash < 0 then None
      else Some((rest[..slash], rest[slash + 1..]))
  }

  /** A global id names its node type and parameter unambiguously. */
  lemma {:induction false} ParseGidOfGid(discountType: string, param: string)
    requires '/' !in discountType
    ensures ParseGid(Gid(discountType, param)) == Some((discountType, param))
  {
    var s := Gid(discountType, param);
    assert s[..|GidPrefix|] == GidPrefix;
    var rest := s[|GidPrefix|..];
    assert rest == discountType + "/" + param;
    var n := |discountType|;
    assert OccursAt(rest, "/", n) by {
      assert rest[n..n + 1] == "/";
    }
    forall j | 0 <= j < n
      ensures !OccursAt(rest, "/", j)
    {
      assert rest[j] == discountType[j] != '/';
      assert rest[j..j + 1][0] == rest[j];
    }
    var slash := IndexOf(rest, "/");
    assert slash == n;
    assert rest[..n] == discountType;
    assert rest[n + 1..] == param;
  }

  /** Only the global id of a type and parameter splits into that pair, and
      the type it yields holds no slash: `ParseGid` is one-to-one. */
  lemma {:induction false} GidOfParseGid(s: string, discountType: string, param: string)
    requires ParseGid(s) == Some((discountType, param))
    ensures s == Gid(discountType, param)
    ensures '/' !in discountType
  {
    var rest := s[|GidPrefix|..];
    var slash := IndexOf(rest, "/");
    assert rest[slash..slash + 1] == "/";
    assert rest == rest[..slash] + "/" + rest[slash + 1..];
    assert s == s[..|GidPrefix|] + rest;
    forall j | 0 <= j < slash
      ensures discountType[j] != '/'
    {
      assert !OccursAt(rest, "/", j);
      assert rest[j..j + 1] == [rest[j]];
    }
  }

  /** A lookup issued for a code node classifies as code, whatever the parameter. */
  lemma {:induction false} CodeNodeGidIsCode(param: string)
    ensures ClassifyId(Str(Gid("DiscountCodeNode", param))) == Code
  {
    var pre := "gid://shopify/Discount";
    var rest := "CodeNode/" + param;
    var s := Gid("DiscountCodeNode", param);
    assert s == pre + rest;
    assert 'C' !in pre;
    OccursAfterPrefix(pre, rest, Marker, 0);
    assert OccursAt(rest, Marker, 0) by {
      assert rest[0..4] == Marker;
    }
    NoStartInPrefix(pre, rest, Marker, 0);
    assert IndexOf(s, Marker) != 0;
  }

  /** A lookup issued for an automatic node classifies as code exactly when
      the parameter itself contains `Code`. */
  lemma {:induction false} AutomaticNodeGidIsCodeIff(param: string)
    ensures ClassifyId(Str(Gid("DiscountAutomaticNode", param))) == Code <==> Occurs(param, Marker)
    ensures ClassifyId(Str(Gid("DiscountAutomaticNode", param))) != Pending
  {
    AutomaticGidMarker(param);
  }

  /** Where `Code` can occur in an automatic node's global id: never at its
      start, and anywhere only where it occurs in the parameter. */
  lemma {:induction false} AutomaticGidMarker(param: string)
    ensures !OccursAt(Gid("DiscountAutomaticNode", param), Marker, 0)
    ensures Occurs(Gid("DiscountAutomaticNode", param), Marker) <==> Occurs(param, Marker)
  {
    var pre := GidPrefix + "DiscountAutomaticNode/";
    assert Gid("DiscountAutomaticNode", param) == pre + param;
    NoMarkerStartInAutomaticPrefix();
    NoStartInPrefix(pre, param, Marker, 0);
    OccursPastPrefixIff(pre, param, Marker);
  }

  /** The text an automatic node's global id starts with holds no `C`. */
  lemma NoMarkerStartInAutomaticPrefix()
    ensures Marker[0] !in GidPrefix + "DiscountAutomaticNode/"
  {
    var pre := GidPrefix + "DiscountAutomaticNode/";
    forall i | 0 <= i < |pre|
      ensures pre[i] != 'C'
    {
    }
  }

  /** The credentials a session supplies to the GraphQL client. */
  datatype Session = Session(shop: string, accessToken: string)
  datatype Client = Client(shop: string, accessToken: string)

  /** What the relay hands to `client.query`: the optional `key`, the document
      and its variables. */
  datatype Request = Request(key: Option<string>, query: Operation, variables: Js)

  /** The observable steps of a handler, in order. `Raise` is an exception
      escaping the handler, after which it does nothing more. */
  datatype Effect =
    | Issue(client: Client, request: Request)
    | Reply(status: int, body: Js)
    | Raise(fault: Fault)

  const NoSessionReply: Effect := Reply(401, Str("Could not find a Shopify session"))

  /** `getClient`: without a session it answers 401 and yields no client. */
  function GetClient(session: Option<Session>): (r: (seq<Effect>, Option<Client>))
    ensures session.None? <==> r.1.None?
    ensures session.None? ==> r.0 == [NoSessionReply]
    ensures session.Some? ==> r == ([], Some(Client(session.value.shop, session.value.accessToken)))
  {
    match session
    case None => ([NoSessionReply], None)
    case Some(s) => ([], Some(Client(s.shop, s.accessToken)))
  }

  /** The request `runDiscountQuery` issues for document `q` and route parameter `param`. */
  function LookupRequest(q: Operation, param: string): (r: Request)
    ensures r.key == Some(QueryTarget(q).key) && r.query == q
    ensures r.variables.Obj? && r.variables.fields.Keys == {"id"}
    ensures r.variables.fields["id"].Str?
    ensures ParseGid(r.variables.fields["id"].s) == Some((QueryTarget(q).discountType, param))
  {
    ParseGidOfGid(QueryTarget(q).discountType, param);
    Request(Some(QueryTarget(q).key), q, Obj(map["id" := Str(Gid(QueryTarget(q).discountType, param))]))
  }

  /** `runDiscountQuery`: its effects and the body it returns (`undefined`
      when there was no session). */
  function RunQuery(session: Option<Session>, platform: Request -> Js, q: Operation, param: string): (r: (seq<Effect>, Js))
    ensures session.None? ==> r == ([NoSessionReply], Undefined)
    ensures session.Some? ==>
      var c := Client(session.value.shop, session.value.accessToken);
      r == ([Issue(c, LookupRequest(q, param))], platform(LookupRequest(q, param)))
  {
    match GetClient(session)
    case (effects, None) => (effects, Undefined)
    case (_, Some(c)) =>
      var req := LookupRequest(q, param);
      ([Issue(c, req)], platform(req))
  }

  /** The number of replies in a trace. */
  function ReplyCount(effects: seq<Effect>): nat
  {
    if |effects| == 0 then 0
    else (if effects[0].Reply? then 1 else 0) + ReplyCount(effects[1..])
  }

  /** A trace in which nothing follows a raise. */
  predicate RaisesLast(effects: seq<Effect>)
  {
    forall i :: 0 <= i < |effects| - 1 ==> !effects[i].Raise?
  }

  /** Some step before position `i` of `effects` is a reply. */
  predicate RepliedBefore(effects: seq<Effect>, i: int)
  {
    exists j :: 0 <= j < i && j < |effects| && effects[j].Reply?
  }

  /** A reply before position `i - 1` of the tail is a reply before position
      `i` of the whole trace. */
  lemma RepliedBeforeTail(effects: seq<Effect>)
    requires |effects| > 0
    ensures forall i :: RepliedBefore(effects[1..], i - 1) ==> RepliedBefore(effects, i)
  {
    forall i | RepliedBefore(effects[1..], i - 1)
      ensures RepliedBefore(effects, i)
    {
      var j :| 0 <= j < i - 1 && j < |effects[1..]| && effects[1..][j].Reply?;
      assert effects[j + 1].Reply?;
    }
  }

  /** The steps a handler actually takes when it attempts `attempted`: a
      request is answered at most once, so a reply attempted after an earlier
      one (or after `replied`) raises instead, and nothing follows a raise. */
  function Deliver(attempted: seq<Effect>, replied: bool): (r: seq<Effect>)
    ensures Delivered(attempted, replied, r)
    ensures |r| <= |attempted|
    ensures ReplyCount(r) <= (if replied then 0 else 1)
    ensures forall i :: 0 <= i < |r| ==>
      r[i] == attempted[i] ||
      (i == |r| - 1 && attempted[i].Reply? && r[i] == Raise(HeadersAlreadySent))
    ensures RaisesLast(r)
    ensures RaisesLast(attempted) && ReplyCount(attempted) <= (if replied then 0 else 1) ==>
      r == attempted
    ensures |r| == |attempted| || (|r| > 0 && r[|r| - 1].Raise?)
    ensures forall i :: 0 <= i < |r| && r[i] != attempted[i] ==>
      replied || RepliedBefore(attempted, i)
    decreases |attempted|
  {
    if |attempted| == 0 then []
    else
      var e, tail := attempted[0], attempted[1..];
      assert attempted == [e] + tail;
      if e.Raise? || (e.Reply? && replied) then
        var r := if e.Raise? then [e] else [Raise(HeadersAlreadySent)];
        DeliverStops(e, tail, replied, r);
        r
      else
        var rest := Deliver(tail, replied || e.Reply?);
        DeliverPasses(e, tail, replied, rest);
        [e] + rest
  }

  /** The clauses `Deliver` ensures, as one fact to carry through its cases. */
  predicate Delivered(attempted: seq<Effect>, replied: bool, r: seq<Effect>)
  {
    && |r| <= |attempted|
    && ReplyCount(r) <= (if replied then 0 else 1)
    && (forall i :: 0 <= i < |r| ==>
          r[i] == attempted[i] ||
          (i == |r| - 1 && attempted[i].Reply? && r[i] == Raise(HeadersAlreadySent)))
    && RaisesLast(r)
    && (RaisesLast(attempted) && ReplyCount(attempted) <= (if replied then 0 else 1) ==>
          r == attempted)
    && (|r| == |attempted| || (|r| > 0 && r[|r| - 1].Raise?))
    && (forall i :: 0 <= i < |r| && r[i] != attempted[i] ==>
          replied || RepliedBefore(attempted, i))
  }

  /** A trace stops at a raise, and at a reply that comes too late. */
  lemma DeliverStops(e: Effect, tail: seq<Effect>, replied: bool, r: seq<Effect>)
    requires e.Raise? || (e.Reply? && replied)
    requires r == if e.Raise? then [e] else [Raise(HeadersAlreadySent)]
    ensures Delivered([e] + tail, replied, r)
  {
    assert r[1..] == [];
  }

  /** A step that may still happen is kept, and the rest of the trace is
      delivered with the reply it may have made recorded. */
  lemma DeliverPasses(e: Effect, tail: seq<Effect>, replied: bool, rest: seq<Effect>)
    requires !e.Raise? && !(e.Reply? && replied)
    requires Delivered(tail, replied || e.Reply?, rest)
    ensures Delivered([e] + tail, replied, [e] + rest)
  {
    var a, r := [e] + tail, [e] + rest;
    assert a[1..] == tail;
    assert r[1..] == rest;
    forall i | 0 < i < |r|
      ensures r[i] == rest[i - 1] && a[i] == tail[i - 1]
    {
    }
    forall i | 0 <= i < |r| && r[i] != a[i]
      ensures replied || RepliedBefore(a, i)
    {
      if !replied {
        if e.Reply? {
          assert a[0].Reply?;
        } else {
          RepliedBeforeTail(a);
        }
      }
    }
    if RaisesLast(a) && ReplyCount(a) <= (if replied then 0 else 1) {
      assert rest == tail;
    }
  }

  /** The body the GET handler sends when the lookup classified as `kind`. */
  function GetReply(kind: Kind, details: Js): Js
  {
    Obj(map["discounts" := details, "isDiscountCode" := KindValue(kind)])
  }

  /** `GET /api/discounts/:id`: classify the lookup, then fetch the details
      with the code query when the kind is code and with the automatic query
      otherwise, and answer with both the details and the kind. Without a
      session the lookup answers 401, the classification is pending, and the
      detail query's own 401 is a second reply, which raises. */
  function HandleGet(session: Option<Session>, platform: Request -> Js, param: string): (effects: seq<Effect>)
    ensures ReplyCount(effects) <= 1
    ensures session.None? ==> effects == [NoSessionReply, Raise(HeadersAlreadySent)]
    ensures session.Some? && IsDiscountCode(platform(LookupRequest(DiscountQuery, param))).Err? ==>
      effects == [Issue(Client(session.value.shop, session.value.accessToken),
                        LookupRequest(DiscountQuery, param)),
                  Raise(TypeError)]
  {
    var (first, lookup) := RunQuery(session, platform, DiscountQuery, param);
    match IsDiscountCode(lookup)
    case Err(f) => Deliver(first + [Raise(f)], false)
    case Ok(kind) =>
      var q := if kind == Code then DiscountCodeQuery else DiscountAutomaticQuery;
      var (second, details) := RunQuery(session, platform, q, param);
      var attempted := first + second + [Reply(200, GetReply(kind, details))];
      assert session.None? ==>
        attempted[1..] == [NoSessionReply, Reply(200, GetReply(kind, details))] &&
        Deliver(attempted, false) == [NoSessionReply] + Deliver(attempted[1..], true);
      Deliver(attempted, false)
  }

  /** With a session the GET handler issues the lookup, then the code query
      exactly when the lookup is code (both automatic and pending go to the
      automatic query), and echoes the kind beside the details it got. */
  lemma HandleGetRouting(session: Session, platform: Request -> Js, param: string)
    requires IsDiscountCode(platform(LookupRequest(DiscountQuery, param))).Ok?
    ensures
      var c := Client(session.shop, session.accessToken);
      var kind := IsDiscountCode(platform(LookupRequest(DiscountQuery, param))).value;
      var q := if kind == Code then DiscountCodeQuery else DiscountAutomaticQuery;
      HandleGet(Some(session), platform, param) ==
        [Issue(c, LookupRequest(DiscountQuery, param)),
         Issue(c, LookupRequest(q, param)),
         Reply(200, GetReply(kind, platform(LookupRequest(q, param))))]
  {
    var c := Client(session.shop, session.accessToken);
    var kind := IsDiscountCode(platform(LookupRequest(DiscountQuery, param))).value;
    var q := if kind == Code then DiscountCodeQuery else DiscountAutomaticQuery;
    var reply := Reply(200, GetReply(kind, platform(LookupRequest(q, param))));
    DeliverOneReply(Issue(c, LookupRequest(DiscountQuery, param)), Issue(c, LookupRequest(q, param)), reply);
    assert [Issue(c, LookupRequest(DiscountQuery, param))] + [Issue(c, LookupRequest(q, param))] + [reply] ==
           [Issue(c, LookupRequest(DiscountQuery, param)), Issue(c, LookupRequest(q, param)), reply];
  }

  /** Two requests followed by one reply are delivered as attempted. */
  lemma DeliverOneReply(first: Effect, second: Effect, reply: Effect)
    requires first.Issue? && second.Issue? && reply.Reply?
    ensures Deliver([first, second, reply], false) == [first, second, reply]
  {
    var attempted := [first, second, reply];
    assert attempted[1..] == [second, reply] && [second, reply][1..] == [reply] && [reply][1..] == [];
    assert ReplyCount([reply]) == 1;
    assert ReplyCount([second, reply]) == 1;
    assert ReplyCount(attempted) == 1;
  }

  /** The second query of the GET handler is the code query exactly when the
      classification is `true`. */
  lemma HandleGetCodeQueryIff(session: Session, platform: Request -> Js, param: string)
    requires IsDiscountCode(platform(LookupRequest(DiscountQuery, param))).Ok?
    ensures
      var effects := HandleGet(Some(session), platform, param);
      |effects| == 3 && effects[1].Issue? &&
      (effects[1].request.query == DiscountCodeQuery <==>
        IsDiscountCode(platform(LookupRequest(DiscountQuery, param))) == Ok(Code))
  {
    HandleGetRouting(session, platform, param);
  }

  /** The four submission routes. */
  datatype Route = CodeRoute | UpdateCodeRoute | AutomaticRoute | UpdateAutomaticRoute

  /** The path each route is mounted on. */
  function Path(r: Route): string
  {
    match r
    case CodeRoute => "/api/discounts/code"
    case UpdateCodeRoute => "/api/discounts/update-code"
    case AutomaticRoute => "/api/discounts/automatic"
    case UpdateAutomaticRoute => "/api/discounts/update-automatic"
  }

  /** The route a POST path reaches, if any. */
  function RouteOf(path: string): (r: Option<Route>)
    ensures r.Some? ==> Path(r.value) == path
  {
    if path == "/api/discounts/code" then Some(CodeRoute)
    else if path == "/api/discounts/update-code" then Some(UpdateCodeRoute)
    else if path == "/api/discounts/automatic" then Some(AutomaticRoute)
    else if path == "/api/discounts/update-automatic" then Some(UpdateAutomaticRoute)
    else None
  }

  /** Every route is reached through its own path. */
  lemma RouteOfPath(r: Route)
    ensures RouteOf(Path(r)) == Some(r)
  {
  }

  /** The update routes forward `{data, id}` bodies; the others the whole body. */
  predicate IsUpdate(r: Route)
  {
    r == UpdateCodeRoute || r == UpdateAutomaticRoute
  }

  /** Whether a route concerns code discounts. */
  predicate IsCodeRoute(r: Route)
  {
    r == CodeRoute || r == UpdateCodeRoute
  }

  /** The mutation each route runs. */
  function RouteMutation(r: Route): (m: Operation)
    ensures m != DiscountQuery && m != DiscountCodeQuery && m != DiscountAutomaticQuery
  {
    match r
    case CodeRoute => CreateCodeMutation
    case UpdateCodeRoute => UpdateCodeMutation
    case AutomaticRoute => CreateAutomaticMutation
    case UpdateAutomaticRoute => UpdateAutomaticMutation
  }

  /** Route to mutation is one-to-one, and the mutation agrees with the route
      on both create-or-update and code-or-automatic. */
  lemma RouteMutationFaithful(r1: Route, r2: Route)
    ensures RouteMutation(r1) == RouteMutation(r2) ==> r1 == r2
    ensures IsUpdate(r1) <==> RouteMutation(r1) in {UpdateCodeMutation, UpdateAutomaticMutation}
    ensures IsCodeRoute(r1) <==> RouteMutation(r1) in {CreateCodeMutation, UpdateCodeMutation}
  {
  }

  /** The mutation variables built from the request body: `{discount: body}`
      for a create, `{discount: body.data, id: body.id}` for an update. */
  function MutationVariables(r: Route, body: Js): (v: Result<Js>)
    ensures !IsUpdate(r) ==> v == Ok(Obj(map["discount" := body]))
    ensures IsUpdate(r) ==> (v.Err? <==> Nullish(body))
    ensures IsUpdate(r) && v.Ok? ==>
      v.value.Obj? && v.value.fields.Keys == {"discount", "id"} &&
      v.value.fields["discount"] == OptProp(body, "data") &&
      v.value.fields["id"] == OptProp(body, "id")
  {
    if !IsUpdate(r) then Ok(Obj(map["discount" := body]))
    else
      match Prop(body, "data")
      case Err(f) => Err(f)
      case Ok(data) => Ok(Obj(map["discount" := data, "id" := Prop(body, "id").value]))
  }

  /** A POST to one of the four routes: no session answers 401; otherwise the
      route's mutation is issued and the platform's answer is sent back as is. */
  function HandlePost(r: Route, session: Option<Session>, platform: Request -> Js, body: Js): (effects: seq<Effect>)
    ensures session.None? ==> effects == [NoSessionReply]
    ensures session.Some? && MutationVariables(r, body).Ok? ==>
      var req := Request(None, RouteMutation(r), MutationVariables(r, body).value);
      effects == [Issue(Client(session.value.shop, session.value.accessToken), req), Reply(200, platform(req))]
    ensures session.Some? && MutationVariables(r, body).Err? ==> effects == [Raise(TypeError)]
  {
    var (first, client) := GetClient(session);
    match client
    case None => first
    case Some(c) =>
      match MutationVariables(r, body)
      case Err(f) => first + [Raise(f)]
      case Ok(vars) =>
        var req := Request(None, RouteMutation(r), vars);
        first + [Issue(c, req), Reply(200, platform(req))]
  }

  /** A create never sends an `id` variable; an update always sends the body's
      `id` (undefined when the body has none). */
  lemma MutationIdVariable(r: Route, body: Js)
    requires !Nullish(body)
    ensures MutationVariables(r, body).Ok?
    ensures "id" in MutationVariables(r, body).value.fields <==> IsUpdate(r)
  {
  }
}
