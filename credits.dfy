/** The credit factory of src/utils/credits.js: a pure builder that turns a photo
    author's display name and platform handle into an attribution record whose
    two links carry the site's referral query parameters. */
module Credits {

  datatype Option<T> = None | Some(value: T)

  /** The attribution record the image cards render. */
  datatype CreditRecord = CreditRecord(
    author: string,
    authorUrl: string,
    platform: string,
    platformUrl: string)

  /** Start of every author profile link; the handle follows it directly. */
  const ProfilePrefix: string := "https://unsplash.com/@"
  /** Referral query that ends every author profile link. */
  const ReferralSuffix: string := "?utm_source=mi_app&utm_medium=referral"
  /** The fixed platform label. */
  const PlatformName: string := "Unsplash"
  /** The fixed platform link, with the same referral query. */
  const PlatformUrl: string := "https://unsplash.com/?utm_source=mi_app&utm_medium=referral"

  /** Builds the record. Total: every pair of strings gives a record, and the
      author link is the profile prefix, then the handle verbatim, then the
      referral suffix, so each of the three can be cut back out of it. */
  function Credit(author: string, handle: string): (c: CreditRecord)
    ensures c.author == author
    ensures |c.authorUrl| == |ProfilePrefix| + |handle| + |ReferralSuffix|
    ensures c.authorUrl[..|ProfilePrefix|] == ProfilePrefix
    ensures c.authorUrl[|ProfilePrefix|..|ProfilePrefix| + |handle|] == handle
    ensures c.authorUrl[|c.authorUrl| - |ReferralSuffix|..] == ReferralSuffix
    ensures c.platform == PlatformName && c.platformUrl == PlatformUrl
  {
    var url := ProfilePrefix + handle + ReferralSuffix;
    assert url[..|ProfilePrefix|] == ProfilePrefix;
    assert url[|ProfilePrefix|..|ProfilePrefix| + |handle|] == handle;
    assert url[|url| - |ReferralSuffix|..] == ReferralSuffix;
    CreditRecord(author, url, PlatformName, PlatformUrl)
  }

  /** Reads the handle back out of an author profile link: present exactly
      when the link has the profile prefix and the referral suffix. */
  function HandleOf(url: string): (h: Option<string>)
    ensures h.Some? <==>
      |url| >= |ProfilePrefix| + |ReferralSuffix| &&
      url[..|ProfilePrefix|] == ProfilePrefix &&
      url[|url| - |ReferralSuffix|..] == ReferralSuffix
    ensures h.Some? ==> url == ProfilePrefix + h.value + ReferralSuffix
  {
    if |url| >= |ProfilePrefix| + |ReferralSuffix|
       && url[..|ProfilePrefix|] == ProfilePrefix
       && url[|url| - |ReferralSuffix|..] == ReferralSuffix
    then Some(url[|ProfilePrefix|..|url| - |ReferralSuffix|])
    else None
  }

  /** The handle put into a record's author link is the one read back out. */
  lemma HandleRoundTrip(author: string, handle: string)
    ensures HandleOf(Credit(author, handle).authorUrl) == Some(handle)
  {
  }

  /** Conversely, every link a handle can be read from is the author link the
      factory builds for that handle. */
  lemma HandleOfOnlyAcceptsCredits(url: string, handle: string, author: string)
    requires HandleOf(url) == Some(handle)
    ensures url == Credit(author, handle).authorUrl
  {
  }

  /** Two records are equal exactly when they were built from the same author
      and the same handle: no two handles share a profile link. */
  lemma CreditInjective(a1: string, h1: string, a2: string, h2: string)
    ensures Credit(a1, h1) == Credit(a2, h2) <==> a1 == a2 && h1 == h2
  {
  }
}
