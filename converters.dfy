/** The two record mappings between a URL pair entity and a table row. */
module Converters {
  import opened Wrappers
  import opened Exceptions
  import opened LongURLValue
  import opened Entities
  import opened Models

  /** Copies every field, storing the long URL as its plain string. */
  function ConvertURLEntityToModel(e: URLEntity): (m: URLModel)
    ensures m.id == e.id && m.short_url == e.short_url && m.long_url == e.long_url.value
    ensures m.created_at == e.created_at && m.updated_at == e.updated_at
  {
    URLModel(e.id, e.short_url, AsGenericType(e.long_url), e.created_at, e.updated_at)
  }

  /** Copies every field, wrapping the long URL in a value object, whose
      construction validates it: a stored value that is not a valid URL
      raises the validation error. A row that converts comes back unchanged
      under the opposite mapping. */
  function ConvertURLModelToEntity(m: URLModel): (r: Result<URLEntity, Error>)
    ensures r.Success? <==> Validate(m.long_url).Pass?
    ensures r.Failure? ==> Validate(m.long_url) == Fail(r.error)
    ensures r.Success? ==> r.value.long_url.IsValid() && ConvertURLEntityToModel(r.value) == m
  {
    match NewLongURL(m.long_url)
    case Failure(err) => Failure(err)
    case Success(long_url) => Success(URLEntity(m.id, m.short_url, long_url, m.created_at, m.updated_at))
  }

  /** Entity to row to entity preserves every field of an entity whose long
      URL was validated. */
  lemma EntityRoundTrip(e: URLEntity)
    requires e.long_url.IsValid()
    ensures ConvertURLModelToEntity(ConvertURLEntityToModel(e)) == Success(e)
  {
  }
}
