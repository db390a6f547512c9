/** The common item shape every feed adapter produces and the curator consumes. */
module NewsItems {
  import opened Sorting

  /**
   * One fetched entry. `publishedAt` is the instant of its ISO date in milliseconds;
   * `source` is the feed's address and `sourceName` the feed's name.
   */
  datatype NewsItem = NewsItem(
    id: string,
    title: string,
    url: string,
    source: string,
    sourceName: string,
    publishedAt: int,
    summary: string,
    imageUrl: string,
    content: string)

  /** `new Date(b.publishedAt).getTime() - new Date(a.publishedAt).getTime()`: newest first. */
  function DateKey(n: NewsItem): Key {
    Key(0, n.publishedAt)
  }
}
