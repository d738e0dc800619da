/** Parser output, the chunkers' input. */
module Elements {
  import opened Options
  import opened Text

  datatype Kind =
    | Title | Heading | NarrativeText | ListItem | Table | Image | Formula | PageBreak | Header | Footer | Uncategorized

  datatype Element = Element(text: string, kind: Kind, page: Option<int>, section: Option<string>, tableHtml: Option<string>)
  {
    predicate IsChunkable() {
      !kind.Header? && !kind.Footer? && !kind.PageBreak? && !kind.Image? && Strip(text) != ""
    }
  }

  datatype Chunk = Chunk(text: string, index: nat, tokens: nat, page: Option<int>, section: Option<string>,
                         tableHtml: Option<string>)
}
