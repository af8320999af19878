/** Values the crawl engine passes around: URLs, parsed pages, records and paths. */
module CrawlTypes {

  /** An article URL. Two URLs are the same only when their strings are equal. */
  type Url = string

  datatype Option<T> = None | Some(value: T)

  datatype Result<T, E> = Ok(value: T) | Err(error: E)

  /** A JSON value, as held by one line of the JSONL store. */
  datatype Json =
    | JNull
    | JBool(b: bool)
    | JNumber(n: int)
    | JString(s: string)
    | JArray(items: seq<Json>)
    | JObject(fields: map<string, Json>)

  /** The dictionary a site strategy extracts from one article page. */
  type Record = map<string, Json>

  /** A parsed article page, the document tree the page fetcher hands back. */
  datatype Doc = Doc(html: string)

  /** A filesystem path, as its sequence of components. */
  datatype Path = Path(parts: seq<string>)
}
