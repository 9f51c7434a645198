# Volume discount relay and form: a Dafny model

This project models the decision logic of a Shopify app that creates and edits
"volume discounts" (a percentage off once a minimum quantity is bought). There are two parts:

- **The relay** (`web/middleware/discount-code-api.js`). `IsDiscountCode` classifies a
  discount lookup as pending (`null`), code (`true`) or automatic (`false`). It does this
  by where `"Code"` first occurs in the node id. `runDiscountQuery` addresses a query to
  `gid://shopify/<type>/<param>`. The `GET /api/discounts/:id` handler uses the
  classification to choose the code query or the automatic query. Each of the four POST
  routes runs one mutation, and its variables are either `{discount: body}` or `{discount: body.data, id: body.id}`.
- **The form** (`web/frontend/components/VolumeForm.jsx`). It covers how `isEdit` is
  derived and the `volume?.field || default` initial values. It also covers the choice
  among the four routes in `onSubmit`, the body posted to each, and the decision between
  `fail` and `success`.

JavaScript values are modelled directly (`JsValues.Js`: `undefined`, `null`, booleans,
integers, strings, arrays, objects). This lets the model reproduce the language rules the
code depends on:
- `||` replaces every falsy value, not just a missing one.
- `a.b` raises a TypeError when `a` is `null` or `undefined`; `a?.b` does not.
- `String(id)` and `indexOf` behave as in JavaScript for the values the model represents, except that `indexOf` counts code points rather than UTF-16 code units (see "Left out" below). The classification does not depend on the difference.
- `JSON.stringify` drops object members whose value is `undefined`.

A relay handler is a function that returns its trace of effects: each GraphQL request it
issues, each reply it sends and any exception that escapes. The Shopify session is an
`Option`. The GraphQL platform is a function parameter that maps each request to the body
it answers. The form's `serialise` parameter turns the raw quantity and percentage into the
metafield value. The current date is the parameter `today`, standing for the JSON text of the date.

Behaviours of the code worth knowing:
- Code-method payloads carry no usage-limit fields at all.
- A pending classification (`null`) is sent down the automatic branch of the GET handler.
- A new code discount takes its title from the code field, not the title field.
- An id that *starts* with `Code` classifies as automatic, because the test is `indexOf(...) > 0`.

## Model

| member | source | states |
|---|---|---|
| Occurrence.IndexOf | web/middleware/discount-code-api.js:141 | `indexOf` returns -1 exactly when the pattern does not occur; otherwise it returns an occurrence with no earlier one, counted in code points (see Left out) |
| Occurrence.DigitsRoundTrip | web/middleware/discount-code-api.js:141 | the digits `String(n)` produces for a natural number read back as `n` |
| Occurrence.DecimalRoundTrip | web/middleware/discount-code-api.js:141 | the decimal text `String(n)` produces for every integer, sign included, reads back as `n` |
| Occurrence.DecimalHasNoLetter | web/middleware/discount-code-api.js:141 | `String(n)` of a number contains only a sign and digits, so never the letter `C` |
| JsValues.Or | web/frontend/components/VolumeForm.jsx:74-91 | the or-operator yields `a` when `a` is truthy and `b` otherwise, so every falsy value is replaced |
| JsValues.Prop | web/middleware/discount-code-api.js:135 | a property read fails with a TypeError exactly on `null`/`undefined`; a member an object has is read back, and everything else is `undefined` |
| JsValues.OptProp | web/middleware/discount-code-api.js:135 | `v?.k` is `undefined` on a nullish `v` and is the plain read otherwise |
| JsValues.WireIsJson | web/frontend/components/VolumeForm.jsx:120-127 | after `JSON.stringify` and parsing, a body contains no `undefined` anywhere |
| JsValues.WireKeepsJson | web/frontend/components/VolumeForm.jsx:120-127 | a value that is already JSON survives the round trip unchanged |
| JsValues.WireProp | web/middleware/discount-code-api.js:190 | after the trip a member reads as its own round trip, and an `undefined` or missing member reads as `undefined` |
| DiscountCodeApi.KindValue | web/middleware/discount-code-api.js:132-141 | the echoed `isDiscountCode` is exactly `null` for pending, exactly `true` for code and exactly `false` for automatic |
| DiscountCodeApi.ClassifyId | web/middleware/discount-code-api.js:136-141 | pending iff the id is `null`/`undefined`; code iff `Code` occurs in `String(id)` but not at index 0 |
| DiscountCodeApi.IsDiscountCode | web/middleware/discount-code-api.js:134-142 | an undefined lookup is pending; the function raises exactly when `data` or `discountNode` is nullish; otherwise it classifies `discountNode.id`; the error it raises is a `TypeError` |
| DiscountCodeApi.IsDiscountCodeOfLookup | web/middleware/discount-code-api.js:134-141 | on a well-formed lookup the result is `null` iff the id is nullish, and `true` iff the first `Code` is at an index > 0 |
| DiscountCodeApi.LeadingMarkerIsAutomatic | web/middleware/discount-code-api.js:141 | an id that begins with `Code` is automatic, even when `Code` occurs again later |
| DiscountCodeApi.ScalarIdIsAutomatic | web/middleware/discount-code-api.js:141 | a boolean or numeric id never classifies as code |
| DiscountCodeApi.QueryTarget | web/middleware/discount-code-api.js:218-235 | the lookup query gets (`Discount`, `DiscountNode`), the code query gets (`CodeDiscount`, `DiscountCodeNode`), and every other document falls back to (`AutomaticDiscount`, `DiscountAutomaticNode`) |
| DiscountCodeApi.ParseGidOfGid | web/middleware/discount-code-api.js:242 | the global id determines its node type and route parameter: splitting it recovers both |
| DiscountCodeApi.GidOfParseGid | web/middleware/discount-code-api.js:242 | only `gid://shopify/<type>/<param>` splits into that type and parameter, and the type holds no slash, so the split identifies the global id exactly |
| DiscountCodeApi.LookupRequest | web/middleware/discount-code-api.js:237-245 | a lookup carries its query's key and a single `id` variable, which decodes to the query's node type and the route parameter |
| DiscountCodeApi.CodeNodeGidIsCode | web/middleware/discount-code-api.js:141 | an id of the form `gid://shopify/DiscountCodeNode/<p>` classifies as code for every `p` |
| DiscountCodeApi.AutomaticNodeGidIsCodeIff | web/middleware/discount-code-api.js:141 | an id of the form `gid://shopify/DiscountAutomaticNode/<p>` classifies as code iff `p` contains `Code`, and it is never pending |
| DiscountCodeApi.GetClient | web/middleware/discount-code-api.js:146-163 | without a session the relay replies 401 and gets no client; with one it gets a client built from the session's shop and token |
| DiscountCodeApi.RunQuery | web/middleware/discount-code-api.js:212-248 | without a session: a 401 and `undefined`; with a session: exactly one request is issued and the platform's answer is returned |
| DiscountCodeApi.HandleGetRouting | web/middleware/discount-code-api.js:250-266 | the GET handler issues the lookup and then one detail query: the code query for code, the automatic query for automatic and pending; it replies with the details and the unchanged kind |
| DiscountCodeApi.HandleGetCodeQueryIff | web/middleware/discount-code-api.js:253-266 | the second query is the code query iff the classification is `true` |
| DiscountCodeApi.Deliver | web/middleware/discount-code-api.js:153-156 | a request is answered at most once: the delivered steps are the attempted ones up to a reply attempted after an earlier one, which raises instead; nothing follows a raise; a trace that is cut short ends in a raise, and a step differs from the attempted one only when a reply came before it |
| DiscountCodeApi.HandleGet | web/middleware/discount-code-api.js:250-268 | the GET handler replies at most once; without a session it replies 401, and the detail query's second 401 raises, so no query is issued and no 200 is sent; with a session and a lookup answer lacking `data` or `discountNode`, the lookup is issued and the handler raises a `TypeError` without replying |
| DiscountCodeApi.RouteOf | web/middleware/discount-code-api.js:196-210 | a path that reaches a route is exactly that route's path (see Left out) |
| DiscountCodeApi.RouteOfPath | web/middleware/discount-code-api.js:196-210 | every route is reached through its own path |
| DiscountCodeApi.RouteMutation | web/middleware/discount-code-api.js:196-210 | every route runs a mutation, never a lookup query |
| DiscountCodeApi.RouteMutationFaithful | web/middleware/discount-code-api.js:196-210 | the route-to-mutation mapping is one-to-one and preserves both create/update and code/automatic |
| DiscountCodeApi.MutationVariables | web/middleware/discount-code-api.js:171-191 | a create sends `{discount: body}`; an update sends exactly `{discount: body.data, id: body.id}` and raises only on a nullish body |
| DiscountCodeApi.HandlePost | web/middleware/discount-code-api.js:165-210 | without a session the only effect is the 401; with a session and an update body that is `null` or `undefined`, the only effect is a TypeError; otherwise the route's mutation is issued once and the platform's answer is sent back unchanged |
| DiscountCodeApi.MutationIdVariable | web/middleware/discount-code-api.js:171-191 | a create never sends an `id` variable, and an update always does |
| VolumeForm.IsEdit | web/frontend/components/VolumeForm.jsx:37-44 | `isEdit` is false iff the `volume` prop is `undefined`; a `null` volume still counts as an edit |
| VolumeForm.InitialForm | web/frontend/components/VolumeForm.jsx:74-91 | each field starts from the volume's value when that value is truthy and from its fixed default otherwise; with no volume every field has its default; a volume without a configuration raises |
| VolumeForm.FalsyFieldsFallBack | web/frontend/components/VolumeForm.jsx:74-91 | falsy values are replaced too: usage limit 0 becomes `null`, an empty method becomes Code and a numeric percentage 0 becomes the string `'0'`; a quantity given as the string `'0'` is truthy and is kept instead of its default `'1'` |
| VolumeForm.Endpoint | web/frontend/components/VolumeForm.jsx:115-157 | the route is an update route iff editing, and a code route iff the method is anything other than Automatic |
| VolumeForm.BuildRequest | web/frontend/components/VolumeForm.jsx:95-157 | a submission goes to the endpoint of the 2×2 table; it raises exactly when editing with a nullish volume |
| VolumeForm.SubmissionPayload | web/frontend/components/VolumeForm.jsx:96-156 | every payload copies the function id, combinations and dates, and has one metafield and a title. It has a `code` member iff the method is not Automatic, and no usage-limit or requirement member. A new code discount takes its title from the code |
| VolumeForm.CreateAllocatesMetafield | web/frontend/components/VolumeForm.jsx:101-111 | a create has no `id` and carries exactly one new metafield: namespace `discount-tutorial`, key `volume-config`, type `json`, and the serialised configuration as value |
| VolumeForm.UpdateReferencesMetafield | web/frontend/components/VolumeForm.jsx:115-140 | an update is exactly `{data, id: volume.id}`, and its metafields are the bare reference `[{id: volume.metafieldId}]` |
| VolumeForm.UpdateIgnoresConfiguration | web/frontend/components/VolumeForm.jsx:120-138 | an update's body does not depend on the edited quantity or percentage, so the edited configuration is never sent |
| VolumeForm.NullVolumeSubmissionRaises | web/frontend/components/VolumeForm.jsx:115-126 | with a `null` volume the form stays in edit mode, and submitting raises a TypeError |
| VolumeForm.Decide | web/frontend/components/VolumeForm.jsx:159-169 | the result is `fail` with the user errors passed through unchanged iff there are any; otherwise the redirect is dispatched and the result is `success` |
| EndToEnd.SubmissionReachesMutation | web/middleware/discount-code-api.js:181-210 | once the form's body has crossed the wire, the relay issues the mutation of the kind the form chose. A create sends the whole body; an update sends the discount input and the volume's own id |

## Left out

- React rendering, hooks and state (`useForm`/`useField` internals), Polaris and the discount-app cards, and the error banner: these are UI. The model gives `isEdit` as it stands after the mount effect has run. During the very first render it is always `true`.
- The App Bridge redirect and the breadcrumb actions: these are foreign library calls. The redirect is the `redirected` flag of `VolumeForm.Outcome`.
- `authenticatedFetch` and HTTP transport: the posted body is the `JsValues.Wire` image of the object handed to `JSON.stringify`.
- Reading the response (`response.json()`), and the mismatch between `data.discountUpdate` and the mutations' `discount:` alias: this is the runtime response shape. `VolumeForm.Decide` decides over a given list of user errors.
- `Shopify.Utils.loadCurrentSession` and `Shopify.Clients.Graphql`: external clients. They become an `Option<Session>` and a `platform` function parameter. The GraphQL document texts are seven distinct constants.
- What Express does with an exception that escapes an async handler is not modelled: the trace ends with the `Raise` step, and the request is left without a further reply.
- Asynchrony: the awaits run strictly in sequence, so each handler is a function from its inputs to its trace.
- `parseInt`, `parseFloat` and `JSON.stringify` of the configuration involve floating point and number formatting. They form the opaque `serialise` parameter.
- `todaysDate` (the clock) is the parameter `today`. In the source it is a `Date` object (`web/frontend/components/VolumeForm.jsx:31`, `:87`) copied into `startsAt` (`:99`), which `JSON.stringify` turns into its ISO text; `JsValues.Wire` keeps `today` unchanged, so `today` stands for that JSON text of the date, not for the `Date` object.
- `await client.query(...)` (`web/middleware/discount-code-api.js:171`, `:187`, `:237`) can reject, on a transport failure or a GraphQL `errors` answer. No handler catches it, so the request is then left without any reply. The model's `platform` function is total: it always answers, so the modelled handlers never take that path and the GET handler always reaches its 200 when it has a session and a well-formed lookup.
- DiscountCodeApi.RouteOf: only exact paths are modelled. Express's default routing also matches a path with a trailing slash and ignores letter case, so `/api/discounts/Code/` would reach the create-code route in the source but no route in the model.
- Occurrence.IndexOf: indices count code points, while JavaScript's `indexOf` counts UTF-16 code units, so the value differs when a character outside the Basic Multilingual Plane comes before the match (`"\u{1F600}Code"` gives 1 here and 2 in JavaScript). The classification only tests whether the index is greater than 0, and the two agree on that.
- Numbers are integers: fractions, `NaN` and the limits of double precision are not modelled. `Occurrence.Decimal` renders every integer as plain digits, whereas JavaScript writes magnitudes of 1e21 and above in exponent form (`1e+21`). Neither form contains a `C`, so no modelled decision depends on the difference.
- Property reads on strings and arrays give `undefined` for every key, so built-in properties such as `length` are not modelled through `JsValues.Prop`. The modelled code reads none of them through a property access. The one length it uses, `remoteErrors.length` in the result decision, is the sequence length in `VolumeForm.Decide`.
- The `DiscountMethod` and `RequirementType` library constants are not visible. They are modelled as the strings `Code`, `Automatic` and `None`: only their distinctness and truthiness matter.
- `SetVolume` and `SetVolumeCommon` in `web/frontend/pages/Volume/[id].jsx` (the edit page's reshaping of the lookup response into the form record) are not part of this model. Neither is `web/frontend/pages/index.jsx`, which only navigates.
