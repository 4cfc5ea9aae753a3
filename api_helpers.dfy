/**
 * The normalisers applied to every response of the users API: unwrap a `{ data: … }`
 * envelope, recognise a paginated page by its `displayData` key, and pick the
 * payload of an error response.
 */
module ApiHelpers {
  import opened Json

  /** A value the helpers accept as a paginated page: an object with a `displayData` key. */
  predicate IsPage(v: Json) {
    v.Obj? && "displayData" in v.fields
  }

  /** `response.data || response`; reading `.data` of null or undefined raises a TypeError. */
  function Unwrapped(response: Json): (r: Thrown<Json>)
    ensures r.TypeError? <==> response.Undefined? || response.Null?
    ensures r.Returned? && response.Obj? && "data" in response.fields && Truthy(response.fields["data"])
            ==> r.value == response.fields["data"]
    ensures r.Returned? && !(response.Obj? && "data" in response.fields && Truthy(response.fields["data"]))
            ==> r.value == response
  {
    match Member(response, "data")
    case TypeError => TypeError
    case Returned(d) => Returned(if Truthy(d) then d else response)
  }

  /** transformResponse: the truthy `data` member when there is one, the response itself otherwise. */
  function TransformResponse(response: Json): (r: Thrown<Json>)
    ensures r.TypeError? <==> response.Undefined? || response.Null?
    ensures r.Returned? && response.Obj? && "data" in response.fields && Truthy(response.fields["data"])
            ==> r.value == response.fields["data"]
    ensures r.Returned? && !(response.Obj? && "data" in response.fields && Truthy(response.fields["data"]))
            ==> r.value == response
  {
    Unwrapped(response)
  }

  /**
   * transformPaginatedResponse: the unwrapped value when it is an object holding `displayData`;
   * otherwise the ORIGINAL response, not the unwrapped one.
   */
  function TransformPaginatedResponse(response: Json): (r: Thrown<Json>)
    ensures r.TypeError? <==> response.Undefined? || response.Null?
    ensures r.Returned? && r.value != response ==>
              IsPage(r.value) && response.Obj? && "data" in response.fields && r.value == response.fields["data"]
    ensures r.Returned? && IsPage(Unwrapped(response).value) ==> r.value == Unwrapped(response).value
    ensures r.Returned? && !IsPage(Unwrapped(response).value) ==> r.value == response
  {
    match Unwrapped(response)
    case TypeError => TypeError
    case Returned(data) =>
      if Truthy(data) && IsTypeofObject(data) && HasKey(data, "displayData") then Returned(data)
      else Returned(response)
  }

  /** Both shapes the server may send a page in, bare or in a `data` envelope, normalise to the page. */
  lemma PageEnvelopeRoundTrip(page: Json)
    requires IsPage(page)
    requires "data" !in page.fields
    ensures TransformPaginatedResponse(Obj(map["data" := page])) == Returned(page)
    ensures TransformPaginatedResponse(page) == Returned(page)
  {
  }

  /** Unwrapping undoes wrapping a truthy value in a `data` envelope, and keeps an envelope around a falsy one. */
  lemma ResponseEnvelopeRoundTrip(v: Json)
    ensures Truthy(v) ==> TransformResponse(Obj(map["data" := v])) == Returned(v)
    ensures !Truthy(v) ==> TransformResponse(Obj(map["data" := v])) == Returned(Obj(map["data" := v]))
  {
  }

  /**
   * transformErrorResponse: an object with `message` is returned as it is (so `message` wins over
   * `error`); otherwise an object's `error` member is returned; anything else is returned unchanged.
   */
  function TransformErrorResponse(response: Json): (r: Json)
    ensures !IsTypeofObject(response) ==> r == response
    ensures response.Obj? && "message" in response.fields ==> r == response
    ensures response.Obj? && "message" !in response.fields && "error" in response.fields
            ==> r == response.fields["error"]
    ensures r != response ==> response.Obj? && "message" !in response.fields && "error" in response.fields
  {
    if Truthy(response) && IsTypeofObject(response) then
      if HasKey(response, "message") then response
      else if HasKey(response, "error") then response.fields["error"]
      else response
    else response
  }
}
