/** The attribution overlay of the image card in src/components/Showcase.jsx:
    the two links it renders from an optional credit record. */
module Card {
  import opened Credits

  /** JavaScript's `||` on two strings: the left operand unless it is the
      empty string, the only string that is falsy. */
  function OrElse(s: string, fallback: string): string
  {
    if s == [] then fallback else s
  }

  /** A rendered anchor: where it points and the text it shows. */
  datatype Link = Link(href: string, text: string)

  /** The overlay: a link to the author's profile and one to the platform. */
  datatype Attribution = Attribution(authorLink: Link, platformLink: Link)

  /** The overlay for a card. No credit, no overlay. The author link shows the
      record's fields as they are; the platform link falls back to the bare
      platform site and label when the record leaves those fields empty, so it
      never points nowhere and never shows no text. */
  function AttributionOf(credit: Option<CreditRecord>): (a: Option<Attribution>)
    ensures a.Some? <==> credit.Some?
    ensures a.Some? ==> a.value.authorLink == Link(credit.value.authorUrl, credit.value.author)
    ensures a.Some? ==> a.value.platformLink.href != [] && a.value.platformLink.text != []
    ensures a.Some? && credit.value.platformUrl != [] ==> a.value.platformLink.href == credit.value.platformUrl
    ensures a.Some? && credit.value.platform != [] ==> a.value.platformLink.text == credit.value.platform
    ensures a.Some? && credit.value.platformUrl == [] ==> a.value.platformLink.href == "https://unsplash.com"
    ensures a.Some? && credit.value.platform == [] ==> a.value.platformLink.text == "Unsplash"
  {
    match credit
    case None => None
    case Some(c) =>
      Some(Attribution(
        Link(c.authorUrl, c.author),
        Link(OrElse(c.platformUrl, "https://unsplash.com"), OrElse(c.platform, "Unsplash"))))
  }

  /** For every record the credit factory builds, neither fallback fires: the
      platform link is exactly the record's own platform link and label. */
  lemma FactoryCreditsNeedNoFallback(author: string, handle: string)
    ensures AttributionOf(Some(Credit(author, handle))) ==
      Some(Attribution(
        Link(Credit(author, handle).authorUrl, author),
        Link(PlatformUrl, PlatformName)))
  {
  }
}
