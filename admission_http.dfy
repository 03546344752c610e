/**
 * The dual-schema codec of admission_http.go: field-for-field converters
 * between the `admission.k8s.io/v1` and `admission.k8s.io/v1beta1` review
 * types, the validation and decode order of `ReadAdmissionReview`, the
 * envelope built by `WriteAdmissionResponse`, `CreateErrorResponse`, and
 * the name-keyed registration of `InitializeRuntimeScheme`.
 */
module AdmissionHttp {
  import opened Wrappers
  import Collections

  newtype byte = x: int | 0 <= x < 256
  type Bytes = seq<byte>

  const JsonMime: string := "application/json"
  const VerAdmissionApi: string := "admission.k8s.io/v1"
  const VerAdmissionApiBeta1: string := "admission.k8s.io/v1beta1"

  // Payload types nested in a review. The converters carry them by identity,
  // so only their shape matters here.
  datatype TypeMeta = TypeMeta(apiVersion: string, kind: string)
  datatype GroupVersionKind = GroupVersionKind(group: string, version: string, kind: string)
  datatype GroupVersionResource = GroupVersionResource(group: string, version: string, resource: string)
  datatype UserInfo = UserInfo(username: string, uid: string, groups: seq<string>,
                               extra: map<string, seq<string>>)
  datatype RawExtension = RawExtension(raw: Bytes)
  datatype Status = Status(status: string, message: string, reason: string, code: int)

  /** The zero `TypeMeta` of a review built in code. */
  const NoTypeMeta: TypeMeta := TypeMeta("", "")

  // The two schemas. Their enumerations are distinct string types.
  datatype V1Operation = V1Operation(name: string)
  datatype Beta1Operation = Beta1Operation(name: string)
  datatype V1PatchType = V1PatchType(name: string)
  datatype Beta1PatchType = Beta1PatchType(name: string)

  /** `admission/v1.AdmissionRequest`; `obj` and `oldObj` are `Object` and `OldObject`. */
  datatype V1Request = V1Request(
    uid: string, kind: GroupVersionKind, resource: GroupVersionResource, subResource: string,
    requestKind: Option<GroupVersionKind>, requestResource: Option<GroupVersionResource>,
    requestSubResource: string, name: string, namespace: string, operation: V1Operation,
    userInfo: UserInfo, obj: RawExtension, oldObj: RawExtension, dryRun: Option<bool>,
    options: RawExtension)

  /** `admission/v1beta1.AdmissionRequest`. */
  datatype Beta1Request = Beta1Request(
    uid: string, kind: GroupVersionKind, resource: GroupVersionResource, subResource: string,
    requestKind: Option<GroupVersionKind>, requestResource: Option<GroupVersionResource>,
    requestSubResource: string, name: string, namespace: string, operation: Beta1Operation,
    userInfo: UserInfo, obj: RawExtension, oldObj: RawExtension, dryRun: Option<bool>,
    options: RawExtension)

  /** `admission/v1.AdmissionResponse`. */
  datatype V1Response = V1Response(
    uid: string, allowed: bool, result: Option<Status>, patch: Bytes,
    patchType: Option<V1PatchType>, auditAnnotations: map<string, string>)

  /** `admission/v1beta1.AdmissionResponse`. */
  datatype Beta1Response = Beta1Response(
    uid: string, allowed: bool, result: Option<Status>, patch: Bytes,
    patchType: Option<Beta1PatchType>, auditAnnotations: map<string, string>)

  /** `admission/v1.AdmissionReview`. */
  datatype V1Review = V1Review(typeMeta: TypeMeta, request: Option<V1Request>, response: Option<V1Response>)

  /** `admission/v1beta1.AdmissionReview`. */
  datatype Beta1Review = Beta1Review(typeMeta: TypeMeta, request: Option<Beta1Request>,
                                     response: Option<Beta1Response>)

  // ----- v1 to v1beta1 -----

  function V1ToBeta1Operation(source: V1Operation): (r: Beta1Operation)
    ensures r.name == source.name
  {
    Beta1Operation(source.name)
  }

  function V1ToBeta1Request(source: Option<V1Request>): (r: Option<Beta1Request>)
    ensures r.Some? <==> source.Some?
    ensures r.Some? ==>
      var s, t := source.value, r.value;
      && t.uid == s.uid && t.kind == s.kind && t.resource == s.resource
      && t.subResource == s.subResource && t.requestKind == s.requestKind
      && t.requestResource == s.requestResource && t.requestSubResource == s.requestSubResource
      && t.name == s.name && t.namespace == s.namespace && t.operation.name == s.operation.name
      && t.userInfo == s.userInfo && t.obj == s.obj && t.oldObj == s.oldObj
      && t.dryRun == s.dryRun && t.options == s.options
  {
    match source
    case None => None
    case Some(s) => Some(Beta1Request(
      s.uid, s.kind, s.resource, s.subResource, s.requestKind, s.requestResource,
      s.requestSubResource, s.name, s.namespace, V1ToBeta1Operation(s.operation),
      s.userInfo, s.obj, s.oldObj, s.dryRun, s.options))
  }

  function V1ToBeta1PatchType(source: Option<V1PatchType>): (r: Option<Beta1PatchType>)
    ensures r.Some? <==> source.Some?
    ensures r.Some? ==> r.value.name == source.value.name
  {
    match source
    case None => None
    case Some(p) => Some(Beta1PatchType(p.name))
  }

  function V1ToBeta1Response(source: Option<V1Response>): (r: Option<Beta1Response>)
    ensures r.Some? <==> source.Some?
    ensures r.Some? ==>
      var s, t := source.value, r.value;
      && t.uid == s.uid && t.allowed == s.allowed && t.result == s.result && t.patch == s.patch
      && (t.patchType.Some? <==> s.patchType.Some?)
      && (t.patchType.Some? ==> t.patchType.value.name == s.patchType.value.name)
      && t.auditAnnotations == s.auditAnnotations
  {
    match source
    case None => None
    case Some(s) => Some(Beta1Response(
      s.uid, s.allowed, s.result, s.patch, V1ToBeta1PatchType(s.patchType), s.auditAnnotations))
  }

  /** The review converter builds a fresh review, so its `TypeMeta` is the zero one. */
  function V1ToBeta1Review(source: Option<V1Review>): (r: Option<Beta1Review>)
    ensures r.Some? <==> source.Some?
    ensures r.Some? ==> r.value.typeMeta == NoTypeMeta
    ensures r.Some? ==> r.value.request == V1ToBeta1Request(source.value.request)
    ensures r.Some? ==> r.value.response == V1ToBeta1Response(source.value.response)
  {
    match source
    case None => None
    case Some(s) => Some(Beta1Review(NoTypeMeta, V1ToBeta1Request(s.request), V1ToBeta1Response(s.response)))
  }

  // ----- v1beta1 to v1 -----

  function Beta1ToV1Operation(source: Beta1Operation): (r: V1Operation)
    ensures r.name == source.name
  {
    V1Operation(source.name)
  }

  function Beta1ToV1Request(source: Option<Beta1Request>): (r: Option<V1Request>)
    ensures r.Some? <==> source.Some?
    ensures r.Some? ==>
      var s, t := source.value, r.value;
      && t.uid == s.uid && t.kind == s.kind && t.resource == s.resource
      && t.subResource == s.subResource && t.requestKind == s.requestKind
      && t.requestResource == s.requestResource && t.requestSubResource == s.requestSubResource
      && t.name == s.name && t.namespace == s.namespace && t.operation.name == s.operation.name
      && t.userInfo == s.userInfo && t.obj == s.obj && t.oldObj == s.oldObj
      && t.dryRun == s.dryRun && t.options == s.options
  {
    match source
    case None => None
    case Some(s) => Some(V1Request(
      s.uid, s.kind, s.resource, s.subResource, s.requestKind, s.requestResource,
      s.requestSubResource, s.name, s.namespace, Beta1ToV1Operation(s.operation),
      s.userInfo, s.obj, s.oldObj, s.dryRun, s.options))
  }

  function Beta1ToV1PatchType(source: Option<Beta1PatchType>): (r: Option<V1PatchType>)
    ensures r.Some? <==> source.Some?
    ensures r.Some? ==> r.value.name == source.value.name
  {
    match source
    case None => None
    case Some(p) => Some(V1PatchType(p.name))
  }

  function Beta1ToV1Response(source: Option<Beta1Response>): (r: Option<V1Response>)
    ensures r.Some? <==> source.Some?
    ensures r.Some? ==>
      var s, t := source.value, r.value;
      && t.uid == s.uid && t.allowed == s.allowed && t.result == s.result && t.patch == s.patch
      && (t.patchType.Some? <==> s.patchType.Some?)
      && (t.patchType.Some? ==> t.patchType.value.name == s.patchType.value.name)
      && t.auditAnnotations == s.auditAnnotations
  {
    match source
    case None => None
    case Some(s) => Some(V1Response(
      s.uid, s.allowed, s.result, s.patch, Beta1ToV1PatchType(s.patchType), s.auditAnnotations))
  }

  function Beta1ToV1Review(source: Option<Beta1Review>): (r: Option<V1Review>)
    ensures r.Some? <==> source.Some?
    ensures r.Some? ==> r.value.typeMeta == NoTypeMeta
    ensures r.Some? ==> r.value.request == Beta1ToV1Request(source.value.request)
    ensures r.Some? ==> r.value.response == Beta1ToV1Response(source.value.response)
  {
    match source
    case None => None
    case Some(s) => Some(V1Review(NoTypeMeta, Beta1ToV1Request(s.request), Beta1ToV1Response(s.response)))
  }

  // ----- round trips -----

  lemma RequestRoundTrip(v1: Option<V1Request>, beta1: Option<Beta1Request>)
    ensures Beta1ToV1Request(V1ToBeta1Request(v1)) == v1
    ensures V1ToBeta1Request(Beta1ToV1Request(beta1)) == beta1
  {
  }

  lemma ResponseRoundTrip(v1: Option<V1Response>, beta1: Option<Beta1Response>)
    ensures Beta1ToV1Response(V1ToBeta1Response(v1)) == v1
    ensures V1ToBeta1Response(Beta1ToV1Response(beta1)) == beta1
  {
  }

  /**
   * Reviews survive a round trip except for their `TypeMeta`, which the
   * converters do not copy; reviews built in code (zero `TypeMeta`) survive whole.
   */
  lemma ReviewRoundTrip(v1: V1Review, beta1: Beta1Review)
    ensures Beta1ToV1Review(V1ToBeta1Review(Some(v1))) == Some(v1.(typeMeta := NoTypeMeta))
    ensures V1ToBeta1Review(Beta1ToV1Review(Some(beta1))) == Some(beta1.(typeMeta := NoTypeMeta))
  {
    RequestRoundTrip(v1.request, beta1.request);
    ResponseRoundTrip(v1.response, beta1.response);
  }

  lemma NilReviewRoundTrip()
    ensures Beta1ToV1Review(V1ToBeta1Review(None)) == None
    ensures V1ToBeta1Review(Beta1ToV1Review(None)) == None
  {
  }

  // ----- ReadAdmissionReview -----

  /** What reading the request body gave: no body, a read error, or bytes. */
  datatype Body = NoBody | Unreadable(err: string) | Body(bytes: Bytes)

  datatype ReadError = ReadFailed(err: string) | EmptyBody | InvalidContentType(received: string)
                     | DecodeFailed(err: string)

  /** A decoded review in v1 form, with the schema version it arrived in. */
  datatype DecodedReview = DecodedReview(apiVersion: string, review: V1Review)

  /**
   * `ReadAdmissionReview`: reject an unreadable or empty body, then any
   * content type other than exactly "application/json"; then try the v1
   * decoder, and only if it fails the v1beta1 decoder, converting its result.
   * The two deserializers are the parameters `decodeV1` and `decodeBeta1`.
   */
  method ReadAdmissionReview(body: Body, contentType: string,
                             decodeV1: Bytes -> Result<V1Review, string>,
                             decodeBeta1: Bytes -> Result<Beta1Review, string>)
    returns (r: Result<DecodedReview, ReadError>)
    ensures body.Unreadable? ==> r == Failure(ReadFailed(body.err))
    ensures body.NoBody? || (body.Body? && body.bytes == []) ==> r == Failure(EmptyBody)
    ensures body.Body? && body.bytes != [] && contentType != JsonMime ==>
      r == Failure(InvalidContentType(contentType))
    ensures body.Body? && body.bytes != [] && contentType == JsonMime ==>
      (decodeV1(body.bytes).Success? ==>
         r == Success(DecodedReview(VerAdmissionApi, decodeV1(body.bytes).value))) &&
      (decodeV1(body.bytes).Failure? && decodeBeta1(body.bytes).Success? ==>
         r == Success(DecodedReview(VerAdmissionApiBeta1, Beta1ToV1Review(Some(decodeBeta1(body.bytes).value)).value))) &&
      (decodeV1(body.bytes).Failure? && decodeBeta1(body.bytes).Failure? ==>
         r == Failure(DecodeFailed(decodeBeta1(body.bytes).error)))
    ensures r.Success? ==> r.value.apiVersion == VerAdmissionApi || r.value.apiVersion == VerAdmissionApiBeta1
  {
    var data: Bytes := [];
    match body {
      case NoBody =>
      case Unreadable(err) =>
        return Failure(ReadFailed(err));
      case Body(bytes) =>
        data := bytes;
    }

    if |data| == 0 {
      return Failure(EmptyBody);
    }

    if contentType != JsonMime {
      return Failure(InvalidContentType(contentType));
    }

    var apiVersion: string;
    var ar: V1Review;
    var arV1 := decodeV1(data);
    if arV1.Failure? {
      var arBeta1 := decodeBeta1(data);
      if arBeta1.Failure? {
        return Failure(DecodeFailed(arBeta1.error));
      }
      ar := Beta1ToV1Review(Some(arBeta1.value)).value;
      apiVersion := VerAdmissionApiBeta1;
    } else {
      ar := arV1.value;
      apiVersion := VerAdmissionApi;
    }
    return Success(DecodedReview(apiVersion, ar));
  }

  // ----- responses -----

  /** `CreateErrorResponse`: a denial whose result carries the failure description. */
  function CreateErrorResponse(errorDesc: string): (r: V1Response)
    ensures !r.allowed
    ensures r.result == Some(Status("Failure", errorDesc, "", 0))
    ensures r.patch == [] && r.patchType == None
    ensures r.uid == "" && r.auditAnnotations == map[]
  {
    V1Response("", false, Some(Status("Failure", errorDesc, "", 0)), [], None, map[])
  }

  /**
   * The envelope `WriteAdmissionResponse` encodes: no request, the handler's
   * response if any, with its UID overwritten by the request's UID when the
   * review has a request.
   */
  function ResponseEnvelope(ar: V1Review, response: Option<V1Response>): (env: V1Review)
    ensures env.typeMeta == NoTypeMeta && env.request == None
    ensures env.response.Some? <==> response.Some?
    ensures env.response.Some? && ar.request.Some? ==> env.response.value.uid == ar.request.value.uid
    ensures env.response.Some? && ar.request.None? ==> env.response.value.uid == response.value.uid
    ensures env.response.Some? ==> env.response.value.(uid := "") == response.value.(uid := "")
  {
    match response
    case None => V1Review(NoTypeMeta, None, None)
    case Some(resp) =>
      V1Review(NoTypeMeta, None,
               Some(if ar.request.Some? then resp.(uid := ar.request.value.uid) else resp))
  }

  /** The bytes of an envelope in the shape named by `apiVersion`: v1beta1 only for that exact string. */
  function EncodeEnvelope(apiVersion: string, env: V1Review,
                          marshalV1: V1Review -> Result<Bytes, string>,
                          marshalBeta1: Beta1Review -> Result<Bytes, string>): (r: Result<Bytes, string>)
    ensures apiVersion == VerAdmissionApiBeta1 ==>
      r == marshalBeta1(Beta1Review(NoTypeMeta, V1ToBeta1Request(env.request), V1ToBeta1Response(env.response)))
    ensures apiVersion != VerAdmissionApiBeta1 ==> r == marshalV1(env)
  {
    if apiVersion == VerAdmissionApiBeta1 then marshalBeta1(V1ToBeta1Review(Some(env)).value)
    else marshalV1(env)
  }

  /** What the HTTP writer receives. */
  datatype WriteOutcome =
    | Sent(bytes: Bytes)                // the encoded envelope was written
    | EncodeFailed(err: string)         // status 500, "Failed to encode response"
    | SendFailed(bytes: Bytes, err: string)  // status 500, "Failed to send response"

  /** The pointer `*AdmissionResponse` shared between the handler's caller and the envelope. */
  class ResponseRef {
    var value: V1Response

    constructor (value: V1Response)
      ensures this.value == value
    {
      this.value := value;
    }
  }

  /**
   * `WriteAdmissionResponse`: set the caller's response UID to the request's
   * UID in place, wrap it in an envelope, encode it in the shape of
   * `apiVersion` and write it; serializer and writer are parameters.
   */
  method WriteAdmissionResponse(apiVersion: string, ar: V1Review, response: ResponseRef?,
                                marshalV1: V1Review -> Result<Bytes, string>,
                                marshalBeta1: Beta1Review -> Result<Bytes, string>,
                                write: Bytes -> Option<string>)
    returns (outcome: WriteOutcome)
    modifies response
    ensures response != null && ar.request.Some? ==>
      response.value == old(response.value).(uid := ar.request.value.uid)
    ensures response != null && ar.request.None? ==> response.value == old(response.value)
    ensures var env := ResponseEnvelope(ar, if response == null then None else Some(old(response.value)));
      var encoded := EncodeEnvelope(apiVersion, env, marshalV1, marshalBeta1);
      outcome == if encoded.Failure? then EncodeFailed(encoded.error)
                 else if write(encoded.value).Some? then SendFailed(encoded.value, write(encoded.value).value)
                 else Sent(encoded.value)
  {
    var responseAR := V1Review(NoTypeMeta, None, None);
    if response != null {
      if ar.request.Some? {
        response.value := response.value.(uid := ar.request.value.uid);
      }
      responseAR := responseAR.(response := Some(response.value));
    }

    var encoded: Result<Bytes, string>;
    if apiVersion == VerAdmissionApiBeta1 {
      var arBeta1 := V1ToBeta1Review(Some(responseAR)).value;
      encoded := marshalBeta1(arBeta1);
    } else {
      encoded := marshalV1(responseAR);
    }

    if encoded.Failure? {
      outcome := EncodeFailed(encoded.error);
    } else {
      var writeErr := write(encoded.value);
      if writeErr.Some? {
        outcome := SendFailed(encoded.value, writeErr.value);
      } else {
        outcome := Sent(encoded.value);
      }
    }
  }

  /**
   * A request that arrived in the v1beta1 schema is answered in that schema,
   * with the request's own UID and the handler's verdict, patch and annotations.
   */
  lemma LegacyRequestAnsweredInLegacyShape(beta1: Beta1Review, resp: V1Response)
    requires beta1.request.Some?
    ensures var ar := Beta1ToV1Review(Some(beta1)).value;
      var out := V1ToBeta1Review(Some(ResponseEnvelope(ar, Some(resp)))).value;
      out.request == None && out.response.Some? &&
      out.response.value.uid == beta1.request.value.uid &&
      out.response.value.allowed == resp.allowed &&
      out.response.value.result == resp.result &&
      out.response.value.patch == resp.patch &&
      out.response.value.auditAnnotations == resp.auditAnnotations &&
      Beta1ToV1Response(out.response) == Some(resp.(uid := beta1.request.value.uid))
  {
    ResponseRoundTrip(Some(resp.(uid := beta1.request.value.uid)), None);
  }

  /** An error response is encoded as a denial carrying the request's UID and the message. */
  lemma ErrorResponseIsDenial(ar: V1Review, errorDesc: string)
    requires ar.request.Some?
    ensures var env := ResponseEnvelope(ar, Some(CreateErrorResponse(errorDesc)));
      env.response.Some? && !env.response.value.allowed &&
      env.response.value.uid == ar.request.value.uid &&
      env.response.value.result == Some(Status("Failure", errorDesc, "", 0))
  {
  }

  // ----- InitializeRuntimeScheme -----

  /** What an updater leaves behind: the scheme it changed, and its error if it failed. */
  datatype SchemeUpdate<S> = SchemeUpdate(scheme: S, err: Option<string>)

  /** The package-level `Scheme` and the names in `appliedSchemes`. */
  class RuntimeScheme<S> {
    var scheme: S
    var appliedSchemes: seq<string>

    /** No name is recorded twice. */
    ghost predicate Valid()
      reads this
    {
      forall i, j :: 0 <= i < j < |appliedSchemes| ==> appliedSchemes[i] != appliedSchemes[j]
    }

    constructor (initial: S)
      ensures Valid() && scheme == initial && appliedSchemes == []
    {
      scheme := initial;
      appliedSchemes := [];
    }

    /**
     * `InitializeRuntimeScheme`: run `updater` only for a name not yet
     * applied, and record the name only when the updater succeeds.
     */
    method InitializeRuntimeScheme(partName: string, updater: S -> SchemeUpdate<S>)
      returns (err: Option<string>)
      requires Valid()
      modifies this
      ensures Valid()
      ensures partName in old(appliedSchemes) ==>
        err == None && scheme == old(scheme) && appliedSchemes == old(appliedSchemes)
      ensures partName !in old(appliedSchemes) ==>
        scheme == updater(old(scheme)).scheme && err == updater(old(scheme)).err &&
        appliedSchemes == if err == None then old(appliedSchemes) + [partName] else old(appliedSchemes)
      ensures err == None ==> partName in appliedSchemes
    {
      var applied := Collections.Contains(appliedSchemes, partName);
      if !applied {
        var update := updater(scheme);
        scheme := update.scheme;
        if update.err.Some? {
          return update.err;
        }
        appliedSchemes := appliedSchemes + [partName];
      }
      return None;
    }
  }

  /** After a successful registration, registering the same name again changes nothing. */
  method InitializeTwice<S>(rs: RuntimeScheme<S>, partName: string, first: S -> SchemeUpdate<S>,
                            second: S -> SchemeUpdate<S>)
    returns (err1: Option<string>, err2: Option<string>)
    requires rs.Valid()
    modifies rs
    ensures rs.Valid()
    ensures err1 == None ==> err2 == None
    ensures err1 == None && partName !in old(rs.appliedSchemes) ==>
      rs.scheme == first(old(rs.scheme)).scheme && rs.appliedSchemes == old(rs.appliedSchemes) + [partName]
  {
    err1 := rs.InitializeRuntimeScheme(partName, first);
    err2 := rs.InitializeRuntimeScheme(partName, second);
  }
}
