/**
 * The database URL clean-up applied before the engine is created: hosting
 * providers hand out `postgres://` URLs, which SQLAlchemy only accepts as
 * `postgresql://`.
 */
module Db {
  import opened Text

  const LegacyScheme: string := "postgres://"
  const Scheme: string := "postgresql://"

  /** `_normalize_db_url(url)`. */
  function NormalizeDbUrl(url: string): (r: string)
    ensures StartsWith(url, LegacyScheme) ==> r == Scheme + url[|LegacyScheme|..]
    ensures !StartsWith(url, LegacyScheme) ==> r == url
    ensures !StartsWith(r, LegacyScheme)
  {
    if StartsWith(url, LegacyScheme) then
      assert Scheme[8] != LegacyScheme[8];
      ReplaceFirst(url, LegacyScheme, Scheme)
    else url
  }

  /** Normalising twice is normalising once. */
  lemma NormalizeIdempotent(url: string)
    ensures NormalizeDbUrl(NormalizeDbUrl(url)) == NormalizeDbUrl(url)
  {
  }

  /** A URL that already names `postgresql://`, or any other scheme, is left alone. */
  lemma NormalizeKeepsOtherSchemes(url: string)
    requires StartsWith(url, Scheme) || !StartsWith(url, LegacyScheme)
    ensures NormalizeDbUrl(url) == url
  {
    if StartsWith(url, Scheme) {
      assert url[8] == 'q' != LegacyScheme[8];
    }
  }

  /** Only the leading scheme is rewritten: a later `postgres://` in the URL stays as it is. */
  lemma NormalizeRewritesOnlyTheScheme(rest: string)
    ensures NormalizeDbUrl(LegacyScheme + rest) == Scheme + rest
  {
    assert (LegacyScheme + rest)[..|LegacyScheme|] == LegacyScheme;
    assert (LegacyScheme + rest)[|LegacyScheme|..] == rest;
  }
}
