/**
 * What the scraper reads from a rendered page, as plain values.  Every
 * Playwright query becomes a field: the texts are the raw `inner_text()` of
 * the elements, before any normalization.
 */
module Dom {
  import opened Strings

  /** An `<a>` element: its inner text and its `href` attribute, if any. */
  datatype Link = Link(text: string, href: Option<string>)

  /** A `<tr>`: the inner texts of its `td, th` cells in order, and its `<a>` elements. */
  datatype Row = Row(cells: seq<string>, links: seq<Link>)

  /** A `<table>`: the inner texts of all its `th` elements in document order, and its `<tr>` rows. */
  datatype Table = Table(thCells: seq<string>, rows: seq<Row>)
}
