/** Values and services the core takes from the .NET runtime and treats as opaque:
    identities (System.Guid), dates (System.DateTime), identity and date text, fresh
    identities (Guid.NewGuid) and the text the JSON writer chooses for a float. */
module Externals {
  import opened Wrappers
  import opened Json

  /** A Guid is its 128-bit value; the all-zero value is Guid.Empty. */
  type Guid = x: int | 0 <= x < 0x1_0000_0000_0000_0000_0000_0000_0000_0000

  const EmptyGuid: Guid := 0

  /** A point in time; only equality matters to the core. */
  datatype DateTime = DateTime(ticks: int)

  /** The collaborators a read or a write relies on.
      - parseGuid: Guid.ParseExact(text, "B"), `None` where it throws FormatException;
      - guidText: Guid.ToString(), the text the writer wraps in braces;
      - parseDate: DateTime.Parse(text), `None` where it throws;
      - dateText: DateTime.ToString("yyyy-MM-ddTHH:mm:ssK");
      - newGuid: the k-th value Guid.NewGuid() returns during one read;
      - doubleLiteral / singleLiteral: the number literal Utf8JsonWriter writes for a
        double / a float. */
  datatype Host = Host(
    parseGuid: string -> Option<Guid>,
    guidText: Guid -> string,
    parseDate: string -> Option<DateTime>,
    dateText: DateTime -> string,
    newGuid: nat -> Guid,
    doubleLiteral: Double -> NumberLiteral,
    singleLiteral: Single -> NumberLiteral)

  /** The identity literal of the format: the Guid's text enclosed in braces. */
  function BracedGuid(host: Host, g: Guid): string
  {
    "{" + host.guidText(g) + "}"
  }

  /** What the runtime guarantees of these collaborators: Guid.NewGuid never yields
      Guid.Empty, and number formatting keeps the value it formats. */
  ghost predicate ValidHost(host: Host)
  {
    && (forall k: nat :: host.newGuid(k) != EmptyGuid)
    && (forall f: Double :: LiteralValue(host.doubleLiteral(f)) == f)
    && (forall f: Single :: LiteralValue(host.singleLiteral(f)) == f)
  }

  /** Guid text that reads back: ParseExact(ToString("B"), "B") is the identity. */
  ghost predicate GuidCodec(host: Host)
  {
    forall g: Guid :: host.parseGuid(BracedGuid(host, g)) == Some(g)
  }
}
