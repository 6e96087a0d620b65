/** From page bytes to `Data` (lines 116-128 of `getData`, and `getPropData`).
    The HTML parser, the JSON decoder and the RSS writer are third-party
    libraries; the model receives them as functions in a `Library`. */
module Extract {
  import opened Wrappers
  import opened Adventar

  /** What the selectors find in a parsed page: the text of the first `title`,
      the text of the first `meta[name="description"]`, and the
      `data-react-props` attribute of the first CalendarContainer div, if any. */
  datatype Document = Document(title: string, description: string, reactProps: Option<string>)

  /** The libraries the handler calls: goquery's `NewDocumentFromReader`,
      `json.Unmarshal` into a `PropData`, and gorilla/feeds' `ToRss`. */
  datatype Library = Library(parse: Bytes -> Option<Document>,
                             unmarshal: string -> Option<PropData>,
                             toRss: Feed -> Option<string>)

  /** `getPropData`: a page without the attribute fails with `PropNotFound`, an
      attribute JSON rejects fails with `UnmarshalError`, anything else is the decoded payload. */
  function GetPropData(doc: Document, unmarshal: string -> Option<PropData>): (r: Result<PropData, Error>)
    ensures r.Err? ==> r.error == PropNotFound || r.error == UnmarshalError
    ensures r == Err(PropNotFound) <==> doc.reactProps.None?
    ensures r.Ok? <==> doc.reactProps.Some? && unmarshal(doc.reactProps.value).Some?
    ensures r.Ok? ==> Some(r.value) == unmarshal(doc.reactProps.value)
  {
    match doc.reactProps
    case None => Err(PropNotFound)
    case Some(props) =>
      match unmarshal(props)
      case None => Err(UnmarshalError)
      case Some(data) => Ok(data)
  }

  /** The tail of `getData`: parse the bytes, take title and description, and
      decode the payload. It succeeds exactly when parsing and `getPropData` do,
      and then carries the page URL it was given. */
  function Parse(body: Bytes, url: string, lib: Library): (r: Result<Data, Error>)
    ensures r.Err? ==> r.error in {ParseError, PropNotFound, UnmarshalError}
    ensures r.Ok? <==> lib.parse(body).Some? && GetPropData(lib.parse(body).value, lib.unmarshal).Ok?
    ensures r.Ok? ==>
      var doc := lib.parse(body).value;
      r.value == Data(doc.title, doc.description, url, GetPropData(doc, lib.unmarshal).value)
  {
    match lib.parse(body)
    case None => Err(ParseError)
    case Some(doc) =>
      match GetPropData(doc, lib.unmarshal)
      case Err(e) => Err(e)
      case Ok(pdata) => Ok(Data(doc.title, doc.description, url, pdata))
  }
}
