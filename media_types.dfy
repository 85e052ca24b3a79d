/** The fixed table of media-type filters offered as checkboxes (pages/index.tsx, `mediaTypeOptions`). */
module MediaTypes {

  /** One selectable category: the identifier sent in the query and the caption shown to the user. */
  datatype MediaTypeOption = MediaTypeOption(id: string, caption: string)

  const MediaTypeOptions: seq<MediaTypeOption> := [
    MediaTypeOption("texts", "Texts/PDFs"),
    MediaTypeOption("movies", "Videos"),
    MediaTypeOption("audio", "Audio"),
    MediaTypeOption("images", "Images"),
    MediaTypeOption("software", "Software")
  ]

  /** The identifiers of the table, in display order. */
  function OptionIds(): (ids: seq<string>)
    ensures |ids| == |MediaTypeOptions| == 5
    ensures forall i :: 0 <= i < |ids| ==> ids[i] == MediaTypeOptions[i].id
    ensures forall i, j :: 0 <= i < j < |ids| ==> ids[i] != ids[j]
  {
    seq(|MediaTypeOptions|, i requires 0 <= i < |MediaTypeOptions| => MediaTypeOptions[i].id)
  }

  /** An identifier that one of the checkboxes can hand to the toggle. */
  predicate IsMediaTypeId(t: string)
  {
    t in OptionIds()
  }
}
