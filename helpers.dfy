/** The helpers of client/helpers.go: composing a request route out of
    optional path parts, and turning a request body into a reader. */
module Helpers {
  import opened Wrappers
  import opened Errors

  newtype byte = b: int | 0 <= b < 256

  predicate StartsWithSlash(s: string)
  {
    |s| > 0 && s[0] == '/'
  }

  predicate EndsWithSlash(s: string)
  {
    |s| > 0 && s[|s| - 1] == '/'
  }

  /** A part normalizePathPart can take without indexing out of range: the
      empty string fails on its last character, and "/" becomes empty once
      its trailing slash is cut and then fails on its first one. */
  predicate Normalizable(part: string)
  {
    part != "" && part != "/"
  }

  /** normalizePathPart: cut one trailing slash if there is one, then add a
      leading slash if there is none. */
  function NormalizePathPart(route: string): (r: string)
    requires Normalizable(route)
    ensures StartsWithSlash(r)
    // at most one slash is added (in front) and at most one removed (at the end)
    ensures |r| == |route| + (if StartsWithSlash(route) then 0 else 1)
                           - (if EndsWithSlash(route) then 1 else 0)
    // after its leading slash, the result is the input without its own
    // leading slash and without one trailing slash; nothing in between changes
    ensures r[1..] == route[(if StartsWithSlash(route) then 1 else 0)
                            ..(if EndsWithSlash(route) then |route| - 1 else |route|)]
  {
    var trimmed := if route[|route| - 1] == '/' then route[..|route| - 1] else route;
    if trimmed[0] == '/' then trimmed else "/" + trimmed
  }

  /** A part that is already in normal form is returned unchanged. */
  lemma NormalizeFixesNormalForm(route: string)
    requires StartsWithSlash(route) && !EndsWithSlash(route)
    ensures Normalizable(route)
    ensures NormalizePathPart(route) == route
  {
  }

  /** Only one trailing slash is removed: the result still ends with a slash
      exactly when the input ended with two. */
  lemma NormalizeKeepsSecondTrailingSlash(route: string)
    requires Normalizable(route)
    ensures EndsWithSlash(NormalizePathPart(route))
        <==> |route| >= 2 && route[|route| - 2..] == "//"
  {
    var n := |route|;
    var trimmed := if route[n - 1] == '/' then route[..n - 1] else route;
    var r := NormalizePathPart(route);
    assert |trimmed| > 0 && r[|r| - 1] == trimmed[|trimmed| - 1];
    if route[n - 1] == '/' {
      assert trimmed[|trimmed| - 1] == route[n - 2];
      assert route[n - 2..] == [route[n - 2], route[n - 1]];
    } else {
      assert n >= 2 ==> route[n - 2..][1] == route[n - 1];
    }
  }

  /** Leading slashes are never collapsed: an input that starts with "//"
      keeps both, unless it is "//" itself, whose second slash is the
      trailing one that gets cut. */
  lemma NormalizeKeepsDoubleLeadingSlash(route: string)
    requires Normalizable(route) && |route| >= 3 && route[..2] == "//"
    ensures |NormalizePathPart(route)| >= 2 && NormalizePathPart(route)[..2] == "//"
  {
  }

  /** The output can be normalized again except for the input "//", which
      becomes "/", itself a part normalizePathPart cannot take. */
  lemma NormalizeOutputNormalizable(route: string)
    requires Normalizable(route)
    ensures Normalizable(NormalizePathPart(route)) <==> route != "//"
  {
    if route == "//" {
      assert NormalizePathPart(route) == "/";
    }
  }

  /** Normalizing twice is the same as normalizing once exactly when the
      input does not end with "//" (the second pass removes the slash the
      first one left). */
  lemma NormalizeIdempotentIff(route: string)
    requires Normalizable(route) && route != "//"
    ensures Normalizable(NormalizePathPart(route))
    ensures NormalizePathPart(NormalizePathPart(route)) == NormalizePathPart(route)
        <==> !(|route| >= 2 && route[|route| - 2..] == "//")
  {
    NormalizeOutputNormalizable(route);
    NormalizeKeepsSecondTrailingSlash(route);
  }

  /** The part PrefixRoute contributes for one optional component. */
  function OptionalPart(present: bool, part: string): (r: string)
    requires present ==> Normalizable(part)
    ensures present ==> StartsWithSlash(r)
    ensures !present ==> r == ""
  {
    if present then NormalizePathPart(part) else ""
  }

  /** What PrefixRoute needs of its arguments: only the parts it
      normalizes must be normalizable. */
  predicate PrefixRouteArgs(serviceName: string, pathPrefix: string,
                            appendServiceNameToRoute: bool, route: string)
  {
    && Normalizable(route)
    && (pathPrefix != "" ==> Normalizable(pathPrefix))
    && (appendServiceNameToRoute ==> Normalizable(serviceName))
  }

  /** PrefixRoute: the four-way branch of client/helpers.go. */
  function PrefixRoute(serviceName: string, pathPrefix: string,
                       appendServiceNameToRoute: bool, route: string): (r: string)
    requires PrefixRouteArgs(serviceName, pathPrefix, appendServiceNameToRoute, route)
    ensures StartsWithSlash(r)
    ensures |r| >= |NormalizePathPart(route)|
    ensures r[|r| - |NormalizePathPart(route)|..] == NormalizePathPart(route)
  {
    if !appendServiceNameToRoute && pathPrefix == "" then
      NormalizePathPart(route)
    else if appendServiceNameToRoute && pathPrefix == "" then
      NormalizePathPart(serviceName) + NormalizePathPart(route)
    else if !appendServiceNameToRoute && pathPrefix != "" then
      NormalizePathPart(pathPrefix) + NormalizePathPart(route)
    else
      NormalizePathPart(pathPrefix) + NormalizePathPart(serviceName) + NormalizePathPart(route)
  }

  /** All four branches are one formula: the normalized prefix when there is
      one, then the normalized service name when it is asked for, then the
      normalized route. */
  lemma PrefixRouteIsConcatenation(serviceName: string, pathPrefix: string,
                                   appendServiceNameToRoute: bool, route: string)
    requires PrefixRouteArgs(serviceName, pathPrefix, appendServiceNameToRoute, route)
    ensures PrefixRoute(serviceName, pathPrefix, appendServiceNameToRoute, route)
         == OptionalPart(pathPrefix != "", pathPrefix)
          + OptionalPart(appendServiceNameToRoute, serviceName)
          + NormalizePathPart(route)
  {
  }

  /** The service name matters only when it is appended. */
  lemma PrefixRouteIgnoresUnusedServiceName(s1: string, s2: string, pathPrefix: string, route: string)
    requires PrefixRouteArgs(s1, pathPrefix, false, route)
    ensures PrefixRouteArgs(s2, pathPrefix, false, route)
    ensures PrefixRoute(s1, pathPrefix, false, route) == PrefixRoute(s2, pathPrefix, false, route)
  {
  }

  /** The route's examples: no prefix and no service name, the service name
      alone, and both with a trailing slash on the route. */
  lemma PrefixRouteExamples()
    ensures PrefixRoute("svc", "", false, "/foo/bar") == "/foo/bar"
    ensures PrefixRoute("svc", "", true, "/foo/bar") == "/svc/foo/bar"
    ensures PrefixRoute("svc", "v1", true, "/foo/bar/") == "/v1/svc/foo/bar"
    ensures NormalizePathPart("a//") == "/a/"
    ensures NormalizePathPart("//a") == "//a"
  {
  }

  /** The argument of ObjectToJSONReader: Go's type assertion `v.([]byte)`
      splits it into raw bytes and any other value. */
  datatype Body<V> = RawBytes(bytes: seq<byte>) | Value(value: V)

  /** json.Marshal, left uninterpreted: it either yields bytes or fails
      with a cause. */
  type Marshaller<!V> = V -> Result<seq<byte>, Cause>

  /** ObjectToJSONReader. The reader bytes.NewBuffer returns is represented
      by the bytes it will deliver; a failure carries no reader. */
  function ObjectToJSONReader<V>(v: Body<V>, marshal: Marshaller<V>): (r: Result<seq<byte>, DataError>)
    // raw bytes pass through unchanged, without being marshalled
    ensures v.RawBytes? ==> r == Success(v.bytes)
    // any other value succeeds exactly when marshalling it does, with its bytes
    ensures v.Value? ==> (r.Success? <==> marshal(v.value).Success?)
    ensures v.Value? && marshal(v.value).Success? ==> r.value == marshal(v.value).value
    // a failure is always a marshalling failure wrapping the cause
    ensures r.Failure? ==> && v.Value? && marshal(v.value).Failure?
                           && r.error.Code() == ErrorMarshallingObject
                           && r.error == NewDataError(marshal(v.value).error, ErrorMarshallingObject,
                                                      "Error marshalling object to json")
  {
    match v
    case RawBytes(data) => Success(data)
    case Value(x) =>
      match marshal(x)
      case Failure(err) => Failure(NewDataError(err, ErrorMarshallingObject, "Error marshalling object to json"))
      case Success(data) => Success(data)
  }

  /** Raw bytes do not depend on the marshaller at all: they are never
      re-encoded. */
  lemma RawBytesIgnoreMarshaller<V>(data: seq<byte>, m1: Marshaller<V>, m2: Marshaller<V>)
    ensures ObjectToJSONReader(RawBytes(data), m1) == ObjectToJSONReader(RawBytes(data), m2)
  {
  }
}
