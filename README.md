# Admission-webhook core, modelled in Dafny

This project models the request-handling core of a Kubernetes admission-webhook
framework (Go package `core`). A webhook process receives `AdmissionReview`
requests, which may arrive in the `admission.k8s.io/v1` or the
`admission.k8s.io/v1beta1` schema. It routes each one by path to a registered
webhook and sends back an `AdmissionResponse` in the schema the request used.
Policy handlers rely on the core's label-selector matcher and JSON-patch
builder.

Modules, one per Go file:

- `Collections` (`collections.go`): `Find` and `FindIgnoreCase` are linear
  searches with early exit. Their loop invariants prove "first index, or -1".
  `Contains` and `ContainsIgnoreCase` are built on them.
- `Selector` (`selector.go`): `IsMatch` is a method with loops. It is proved
  equal to the pure predicate `Matches`. Lemmas on `Matches` cover the size
  pre-check, each operator, unknown operators and expression order.
- `AdmissionResponse` (`admission_response.go`): namespace filtering and the
  RFC 6902 patch builder `updateItems`, with its `UpdateAnnotations` and
  `UpdateLabels` wrappers.
- `Webhook` (`webhook.go`): the webhook shape, with its handler kept abstract
  as a type parameter. It also holds the path rule `GetWebhookAction` and the
  `ToString` rendering.
- `WebhookCollection` (`webhook_collection.go`): the append-only registry, as
  a class over a `seq`.
- `AdmissionHttp` (`admission_http.go`): the v1/v1beta1 converters and their
  round trips. It also models the validation and decode order of
  `ReadAdmissionReview`, the envelope and shape choice of
  `WriteAdmissionResponse`, `CreateErrorResponse`, and
  `InitializeRuntimeScheme`.
- `Meta` and `Wrappers`: object metadata, the two system namespace names, and
  `Option`/`Result`.

The model follows the code in these places:

- Selector operators: an expression whose operator is not one of `In`,
  `NotIn`, `Exists` or `DoesNotExist` imposes no constraint. The `switch` at
  selector.go:24-41 has no default branch; it does not reject the object.
- Replace paths: `updateItems` builds the `replace` path as the plain
  concatenation `path + key`, with no '/' separator and no RFC 6901 escaping
  (admission_response.go:81). So replacing label `team` targets
  `/metadata/labelsteam`, not `/metadata/labels/team` (`ReplaceWhenValuePresent`).
- Output order: `updateItems` and the match-labels loop iterate over Go maps,
  so their order is unspecified. The model picks an arbitrary remaining key at
  each step. `UpdateItems` returns the order it used as a ghost witness, and no
  output order is claimed.
- Review `TypeMeta`: the review converters build fresh reviews and do not copy
  `TypeMeta` (apiVersion/kind). A review round trip is therefore the identity
  except for `TypeMeta` (`ReviewRoundTrip`).

## Model

| member | source | states |
|---|---|---|
| `Collections.Find` | collections.go:9-16 | result lies in [-1, len); it is -1 iff the value does not occur; otherwise it is the smallest index holding the value |
| `Collections.FindIgnoreCase` | collections.go:19-27 | result lies in [-1, len); it is the first index whose lower-cased element equals the lower-cased value, and -1 iff there is none |
| `Collections.Contains` | collections.go:30-32 | true iff the value occurs in the collection |
| `Collections.ContainsIgnoreCase` | collections.go:35-37 | true iff some element equals the value up to ASCII case |
| `Collections.ContainsImpliesContainsIgnoreCase` | collections.go:19-37 | an exact occurrence is also a case-insensitive occurrence |
| `Collections.LowerChar` | collections.go:20-22 | ASCII lower-casing: 'A'..'Z' shift by 32, every other character is unchanged |
| `Collections.Lower` | collections.go:20-22 | `strings.ToLower` on a whole string: same length, each character lower-cased by `LowerChar` |
| `Collections.LowerIdempotent` | collections.go:20-22 | lower-casing twice equals lower-casing once |
| `Collections.OccursIgnoreCaseOfLowered` | collections.go:20-22 | lower-casing the searched value first never changes the case-insensitive search |
| `Selector.IsMatch` | selector.go:7-46 | the loops with early exits (size pre-check, match labels in any order, expressions) return exactly `Matches(labels, selector)` |
| `Selector.SizePrecheckSound` | selector.go:9-18 | if the object has fewer labels than the selector's match set, the key loop would also reject, so the pre-check never changes the outcome |
| `Selector.EmptySelectorMatchesAll` | selector.go:8-45 | a selector with no match labels and no expressions matches every object |
| `Selector.MatchesIsConjunction` | selector.go:8-45 | a selector matches iff its match-labels clause matches and every expression matches on its own |
| `Selector.OrderIndependent` | selector.go:21-43 | expressions that are a permutation of each other give the same outcome |
| `Selector.ParseOperator` | selector.go:24-41 | "In", "NotIn", "Exists" and "DoesNotExist" denote exactly `In`, `NotIn`, `Exists` and `DoesNotExist`; every other string is `Unknown` with its own name |
| `Selector.UnknownOperatorIgnored` | selector.go:24-41 | inserting an expression whose operator is none of the four known strings, anywhere, leaves the outcome unchanged |
| `Selector.InSemantics` | selector.go:25-28 | `In` passes iff the key is present and its value is listed |
| `Selector.NotInSemantics` | selector.go:29-32 | `NotIn` passes iff the key is absent or its value is not listed |
| `Selector.PresenceSemantics` | selector.go:33-40 | `Exists` passes iff the key is present and `DoesNotExist` iff it is absent; the value is ignored |
| `AdmissionResponse.IsObjectInNamespaces` | admission_response.go:22-41 | with a list: true iff the namespace is in it (so false for an empty list); with nil: true iff the namespace is kube-system or kube-public |
| `AdmissionResponse.KeyValue` | admission_response.go:51-55 | a map with exactly the one entry key: value |
| `AdmissionResponse.NewAddPatch` | admission_response.go:58-64 | an operation with op "add" and the given path and value |
| `AdmissionResponse.NewReplacePatch` | admission_response.go:67-73 | an operation with op "replace" and the given path and value |
| `AdmissionResponse.UpdateItems` | admission_response.go:75-85 | one operation per key of `added`, in some iteration order that lists every key once. A key gives `add` of `{key: value}` at `path` iff there is no current map or its current value is missing or ""; otherwise it gives `replace` at `path + key` with the new value |
| `AdmissionResponse.UpdateAnnotations` | admission_response.go:88-90 | the `updateItems` result for prefix "/metadata/annotations" |
| `AdmissionResponse.UpdateLabels` | admission_response.go:93-95 | the `updateItems` result for prefix "/metadata/labels" |
| `AdmissionResponse.UpsertCoversEveryKey` | admission_response.go:77-83 | a patch built this way has exactly as many operations as `added` has keys, and each key's operation occurs in it |
| `AdmissionResponse.UpsertOpsAreAddOrReplace` | admission_response.go:75-85 | every emitted op is "add" or "replace" |
| `AdmissionResponse.UpsertOneOpPerKey` | admission_response.go:77-83 | each key of `added` is addressed by exactly one operation, which is an `add` iff the key needs one |
| `AdmissionResponse.ReplacePathsDistinct` | admission_response.go:81 | `path + key` determines the key, so distinct keys never share a replace path |
| `AdmissionResponse.UpsertOpsDistinct` | admission_response.go:77-83 | the emitted operations are pairwise different |
| `AdmissionResponse.AddWhenNoCurrentMap` | admission_response.go:78-79 | with no current map, one label gives exactly one `add` of `{key: value}` at "/metadata/labels" |
| `AdmissionResponse.ReplaceWhenValuePresent` | admission_response.go:80-81 | replacing label team (current "y") by "x" gives exactly one `replace` at "/metadata/labelsteam" with value "x" |
| `Webhook.GetWebhookAction` | webhook.go:30-42 | when ok, the path is the webhook path with an empty action, or the webhook path + "/" + action; when not ok, the action is "" |
| `Webhook.ExactPathMatches` | webhook.go:31-34 | the webhook's own path gives ("", true) |
| `Webhook.ActionAfterSeparator` | webhook.go:36-38 | webhookPath + "/" + rest gives (rest, true) for every rest, including an empty one or one containing '/' |
| `Webhook.NoPrefixNoMatch` | webhook.go:30-42 | a path that does not start with the webhook path gives ("", false) |
| `Webhook.BoundaryCheck` | webhook.go:36-41 | a longer path whose next character after the prefix is not '/' gives ("", false) |
| `Webhook.FooDoesNotMatchFoobar` | webhook.go:36-41 | "/foobar" is not routed to the webhook at "/foo" |
| `Webhook.MatchIffReconstructible` | webhook.go:30-42 | ok holds iff the path equals the webhook path or is the webhook path + "/" + some rest |
| `Webhook.MatchingPathsNested` | webhook.go:30-42 | if one path is routed to two webhook paths, they are equal or the shorter one followed by '/' is a prefix of the longer one (nested paths can both match; unrelated siblings cannot) |
| `Webhook.ToString` | webhook.go:45-51 | for every input, the indented Name, Description and Path pieces joined by '\n' with no trailing newline; for newline-free fields that is exactly three lines |
| `WebhookCollection.WebhookRegistry.constructor` | webhook_collection.go:3 | the registry starts empty |
| `WebhookCollection.WebhookRegistry.RegisterWebhook` | webhook_collection.go:6-8 | the new list is the old list followed by the webhook: one longer, the webhook last, earlier entries unchanged in value and position |
| `WebhookCollection.WebhookRegistry.GetRegisteredWebhooks` | webhook_collection.go:11-13 | returns every registration in registration order |
| `WebhookCollection.RegisterSamePathTwice` | webhook_collection.go:6-8 | registering two webhooks with the same path keeps both, in order (no deduplication) |
| `AdmissionHttp.V1ToBeta1Operation` | admission_http.go:34-36 | the operation is re-tagged with the same string |
| `AdmissionHttp.Beta1ToV1Operation` | admission_http.go:90-92 | the operation is re-tagged with the same string |
| `AdmissionHttp.V1ToBeta1Request` | admission_http.go:37-58 | nil maps to nil; otherwise every one of the fifteen fields is carried unchanged and the operation keeps the same string |
| `AdmissionHttp.Beta1ToV1Request` | admission_http.go:93-114 | nil maps to nil; otherwise every one of the fifteen fields is carried unchanged and the operation keeps the same string |
| `AdmissionHttp.V1ToBeta1PatchType` | admission_http.go:59-66 | nil maps to nil; otherwise the patch type keeps the same string |
| `AdmissionHttp.Beta1ToV1PatchType` | admission_http.go:115-122 | nil maps to nil; otherwise the patch type keeps the same string |
| `AdmissionHttp.V1ToBeta1Response` | admission_http.go:67-79 | nil maps to nil; otherwise UID, Allowed, Result, Patch and AuditAnnotations are carried unchanged and PatchType is nil iff it was, keeping the same string |
| `AdmissionHttp.Beta1ToV1Response` | admission_http.go:123-135 | nil maps to nil; otherwise UID, Allowed, Result, Patch and AuditAnnotations are carried unchanged and PatchType is nil iff it was, keeping the same string |
| `AdmissionHttp.V1ToBeta1Review` | admission_http.go:80-88 | nil maps to nil; otherwise the result has a zero TypeMeta and holds the converted request and the converted response |
| `AdmissionHttp.Beta1ToV1Review` | admission_http.go:136-144 | nil maps to nil; otherwise the result has a zero TypeMeta and holds the converted request and the converted response |
| `AdmissionHttp.RequestRoundTrip` | admission_http.go:37-114 | converting a request to the other schema and back is the identity, in both directions, nil included |
| `AdmissionHttp.ResponseRoundTrip` | admission_http.go:59-135 | converting a response (UID, Allowed, Result, Patch, PatchType, AuditAnnotations) to the other schema and back is the identity, in both directions, nil included |
| `AdmissionHttp.ReviewRoundTrip` | admission_http.go:80-144 | converting a review to the other schema and back is the identity except for TypeMeta, which becomes zero |
| `AdmissionHttp.NilReviewRoundTrip` | admission_http.go:80-144 | nil reviews map to nil in both directions |
| `AdmissionHttp.ReadAdmissionReview` | admission_http.go:147-194 | an unreadable body is an error. A missing or empty body is an error, then any content type other than exactly "application/json". If v1 decoding succeeds the result is ("admission.k8s.io/v1", that review). Otherwise, if v1beta1 decoding succeeds, the result is ("admission.k8s.io/v1beta1", the converted review). Otherwise it is the v1beta1 decode error |
| `AdmissionHttp.CreateErrorResponse` | admission_http.go:197-204 | Allowed is false, the result has status "Failure" and the given message, there is no patch or patch type, the UID is empty and there are no audit annotations |
| `AdmissionHttp.ResponseEnvelope` | admission_http.go:212-218 | the envelope has no request and a response iff one was given. The response UID is the request's UID when the review has a request, and is kept when it has none. All other response fields are unchanged |
| `AdmissionHttp.EncodeEnvelope` | admission_http.go:222-227 | for apiVersion exactly "admission.k8s.io/v1beta1" the bytes are the v1beta1 marshaling of the converted envelope (zero TypeMeta, converted request and response); for any other string they are the v1 marshaling of the envelope |
| `AdmissionHttp.WriteAdmissionResponse` | admission_http.go:207-238 | the caller's response gets the request UID in place. The envelope is encoded in the chosen shape. An encode error gives "Failed to encode response", a write error gives "Failed to send response", and otherwise the bytes are sent |
| `AdmissionHttp.LegacyRequestAnsweredInLegacyShape` | admission_http.go:186-227 | a request decoded from v1beta1 is answered in v1beta1 with its own UID and the handler's verdict, result, patch and annotations |
| `AdmissionHttp.ErrorResponseIsDenial` | admission_http.go:197-218 | an error response is sent as a denial carrying the request UID and the failure message |
| `AdmissionHttp.RuntimeScheme.constructor` | admission_http.go:23-26 | no scheme name has been applied at start |
| `AdmissionHttp.RuntimeScheme.InitializeRuntimeScheme` | admission_http.go:242-251 | the updater runs only for a name not yet applied, and the name is recorded only when it succeeds. An applied name is a no-op returning no error, and no name is recorded twice |
| `AdmissionHttp.InitializeTwice` | admission_http.go:242-251 | after a successful registration, the same name registered again succeeds and changes nothing |

## Left out

- `context.go` is not part of this model: kubeconfig flags, client configuration and live cluster calls.
- The `init()` registrations (admission_http.go:253-257) are not modelled. `InitializeRuntimeScheme` takes the updater as a parameter (`S -> SchemeUpdate<S>`), and the scheme is an abstract type `S`.
- JSON and Kubernetes (de)serialization (`deserializer.Decode`, `json.Marshal`) are library calls. They are parameters here: total functions returning a value or an error string.
- HTTP I/O is not modelled:
  - Reading the body becomes the `Body` input (no body, read error, or bytes).
  - The `Content-Type` header becomes a string input.
  - `writer.Write` becomes a parameter returning an optional error.
  - `http.Error` becomes the `EncodeFailed`/`SendFailed` outcomes; status 500 and the message texts are named in comments only.
- glog logging is not modelled, including the verbosity-guarded dumps of the body and response.
- `HandleAdmission` is not modelled. The handlers are not shown and take an `http.Request`, so the handler stays an abstract type parameter of `Webhook`.
- Nested Kubernetes payload types are simplified to records that are carried by identity: GroupVersionKind/Resource, UserInfo, RawExtension and Status. Fields the library types may have beyond the ones the converters copy are not modelled; for example, newer API versions have response `Warnings`, which these converters would drop.
- Strings are Dafny character sequences, not Go byte strings. Only '/' and ASCII letters matter to the code, and `strings.ToLower` is modelled for ASCII only (no Unicode case folding).
- `ReadAdmissionReview`: at admission_http.go:152 a read error returns two values from a three-result function, which does not compile. The model returns the evident `ReadFailed` error. The error text of admission_http.go:168, which swaps the received and expected values, is not modelled; the error carries the received content type.
- `WriteAdmissionResponse`: at admission_http.go:224 and 226, `:=` declares new inner `resp` and `err` that are never used, which Go refuses to compile (as it refuses line 152). The model follows the evident intent: it writes the bytes of the selected shape and reports its serialization error. The source panics on a nil review with a non-nil response; the model takes the review as a value.
- `IsMatch` and `IsObjectInNamespaces` take the object metadata and the selector as values, so the nil-pointer panics of the source are not modelled. The source panics only when it dereferences a nil pointer. It always dereferences `selector` (selector.go:8). It reads `object` only when the selector has match labels or expressions (selector.go:9, 14, 23). It reads `meta` only inside the loop, that is, when the list is non-empty (admission_response.go:36). For the nil inputs that do not panic, the model gives the same result whatever value stands in for the nil: an empty selector matches every label map, and an empty list contains no namespace.
- `IgnoredNamespaces` is an exported package variable that callers may reassign (admission_response.go:22-28). The model fixes it as a constant, so `IsObjectInNamespaces` fixes the nil-list fallback to "kube-system" and "kube-public".
- `PatchOperation.Value` is an `interface{}` (admission_response.go:47), and `NewAddPatch`/`NewReplacePatch` accept any value. `PatchValue` narrows it to the two shapes `updateItems` uses: a string map or a string.
- `WebhookRegistry.GetRegisteredWebhooks` returns the list as a value. Go returns the package slice itself, so a caller writing through its elements changes the registry; that aliasing is not modelled.
- Go map iteration order is nondeterministic. The model chooses keys arbitrarily and claims no output order.
- Concurrency: the package-level `webhooks`, `appliedSchemes` and `Scheme` are modelled as objects of the classes `WebhookRegistry` and `RuntimeScheme`. No synchronization is modelled, and the source has none.
