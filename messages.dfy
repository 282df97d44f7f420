/** The message `sendNotification` posts for one notification: a text prefix
    that tells new listings from existing ones, and one embed. The embed's text
    body interpolates rent, room count and size with `Sprintf`; the model keeps
    those as fields instead of rendering them. */
module Messages {
  import opened Outcomes
  import opened Listings
  import opened Format
  import opened Monitor

  /** The house emoji U+1F3E0 as its four UTF-8 bytes, one `char` per byte. */
  const House := "\U{F0}\U{9F}\U{8F}\U{A0}"

  const ExistingPrefix := House + " **Apartment for rent**"
  const NewPrefix := House + " **NEW Apartment for rent!**"

  /** The embed's accent colour, green. */
  const EmbedColor := 0x00FF00

  /** The posted message: content prefix plus the embed's parts. */
  datatype Message = Message(
    content: string,
    title: string,
    url: string,
    rent: int,
    location: string,
    roomCount: Float64,
    squareMeters: int,
    availableFrom: string,
    description: string,
    color: int,
    imageURL: string)

  /** The message for one notification; `parse` stands for the RFC 3339 date parse. */
  function Render(n: Notification, parse: string -> Option<Date>): (m: Message)
    ensures m.content == NewPrefix <==> n.isNew
    ensures m.content == ExistingPrefix <==> !n.isNew
    ensures m.title == n.listing.title && m.url == n.listing.link && m.imageURL == n.listing.imageURL
    ensures m.description == TruncateDescription(n.listing.description)
    ensures |m.description| <= MaxDescriptionLength + |Ellipsis|
    ensures m.availableFrom == FormatStartDate(n.listing.startDate, parse)
    ensures m.rent == n.listing.rent && m.location == n.listing.location
    ensures m.roomCount == n.listing.roomCount && m.squareMeters == n.listing.squareMeters
    ensures m.color == EmbedColor
  {
    TruncateBoundedAndIdempotent(n.listing.description);
    assert NewPrefix[|House| + 3] == 'N' && ExistingPrefix[|House| + 3] == 'A';
    var l := n.listing;
    Message(
      content := if n.isNew then NewPrefix else ExistingPrefix,
      title := l.title,
      url := l.link,
      rent := l.rent,
      location := l.location,
      roomCount := l.roomCount,
      squareMeters := l.squareMeters,
      availableFrom := FormatStartDate(l.startDate, parse),
      description := TruncateDescription(l.description),
      color := EmbedColor,
      imageURL := l.imageURL)
  }
}
