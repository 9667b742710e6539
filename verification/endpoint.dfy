/** Endpoint resolution: the inbound API Gateway path picks the upstream resource. */
module Endpoint {
  import opened Js

  const LocationsPath: string := "/locations"
  const PeoplePath: string := "/people"

  /** Upstream resource names, as the URL segment and as the shaper's selector. */
  const LocationsResource: string := "locations"
  const DirectoryResource: string := "directory"

  /** The `switch` of `getEndpoint`: exact, case-sensitive matching; every other path
      resolves to `null`. */
  function GetEndpoint(path: string): (dest: JsValue)
    ensures dest == Str(LocationsResource) <==> path == LocationsPath
    ensures dest == Str(DirectoryResource) <==> path == PeoplePath
    ensures dest == Null <==> path != LocationsPath && path != PeoplePath
    ensures dest in {Str(LocationsResource), Str(DirectoryResource), Null}
  {
    if path == LocationsPath then Str(LocationsResource)
    else if path == PeoplePath then Str(DirectoryResource)
    else Null
  }

  /** Two paths that resolve to the same resource are the same path. */
  lemma ResolutionInjective(p1: string, p2: string)
    requires GetEndpoint(p1) == GetEndpoint(p2) != Null
    ensures p1 == p2
  {
  }

  /** No normalisation: case variants, trailing slashes, missing leading slashes and the
      resource names themselves all resolve to `null`. */
  lemma VariantsResolveToNull()
    ensures GetEndpoint("/Locations") == Null
    ensures GetEndpoint("/LOCATIONS") == Null
    ensures GetEndpoint("/locations/") == Null
    ensures GetEndpoint("locations") == Null
    ensures GetEndpoint("/People") == Null
    ensures GetEndpoint("/people/") == Null
    ensures GetEndpoint("/directory") == Null
    ensures GetEndpoint("") == Null
  {
  }
}
