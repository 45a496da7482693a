/** The playlist-document entry formatter (apps-script/format.ts): a heading
    and six labelled metadata values, with placeholders for what was not
    supplied. */
module DocFormat {
  import opened Wrappers

  /** SongRequestSubmission; an optional field that is absent or null is `None`. */
  datatype Submission = Submission(
    trackId: string, trackName: string, artistName: string,
    albumName: Option<string>, requesterName: Option<string>,
    dedication: Option<string>, contact: Option<string>,
    submittedAtIso: string)

  datatype MetaEntry = MetaEntry(labelText: string, value: string)

  datatype DocEntry = DocEntry(heading: string, metadata: seq<MetaEntry>)

  const Labels: seq<string> := ["Artist", "Album", "Requested by", "Dedication", "Contact", "Requested at"]
  const Placeholder := "—"
  const GuestName := "Guest"
  const HeadingIdPrefix := " (ID: "

  /** The "Requested at" text. `localeFormat` stands for parsing the
      timestamp with `new Date` and rendering it with `toLocaleString`; it
      gives `None` for an invalid date, and then the raw text is kept. */
  function RequestedAt(iso: string, localeFormat: string -> Option<string>): (r: string)
    ensures localeFormat(iso).None? ==> r == iso
    ensures localeFormat(iso).Some? ==> r == localeFormat(iso).value
  {
    match localeFormat(iso)
    case None => iso
    case Some(formatted) => formatted
  }

  /** `buildDocEntry`: defined for every submission. The heading is the track
      name followed by the identifier in parentheses; the metadata always has
      the six labels in the same order; artist and supplied optional values
      pass through unchanged, absent ones become the placeholder (`Guest`
      for the requester). */
  function BuildDocEntry(s: Submission, localeFormat: string -> Option<string>): (e: DocEntry)
    ensures e.heading == s.trackName + HeadingIdPrefix + s.trackId + ")"
    ensures |e.metadata| == |Labels|
    ensures forall i :: 0 <= i < |Labels| ==> e.metadata[i].labelText == Labels[i]
    ensures e.metadata[0].value == s.artistName
    ensures e.metadata[1].value == s.albumName.GetOr(Placeholder)
    ensures e.metadata[2].value == s.requesterName.GetOr(GuestName)
    ensures e.metadata[3].value == s.dedication.GetOr(Placeholder)
    ensures e.metadata[4].value == s.contact.GetOr(Placeholder)
    ensures e.metadata[5].value == RequestedAt(s.submittedAtIso, localeFormat)
  {
    DocEntry(
      s.trackName + HeadingIdPrefix + s.trackId + ")",
      [ MetaEntry("Artist", s.artistName),
        MetaEntry("Album", s.albumName.GetOr(Placeholder)),
        MetaEntry("Requested by", s.requesterName.GetOr(GuestName)),
        MetaEntry("Dedication", s.dedication.GetOr(Placeholder)),
        MetaEntry("Contact", s.contact.GetOr(Placeholder)),
        MetaEntry("Requested at", RequestedAt(s.submittedAtIso, localeFormat)) ])
  }

  /** The heading can be read back: knowing the track name, the identifier is
      the text between `" (ID: "` and the closing parenthesis. */
  lemma HeadingRecoversTrackId(s: Submission, localeFormat: string -> Option<string>)
    ensures var h := BuildDocEntry(s, localeFormat).heading;
      var start := |s.trackName| + |HeadingIdPrefix|;
      && start < |h| && h[..|s.trackName|] == s.trackName
      && h[|s.trackName|..start] == HeadingIdPrefix
      && h[start..|h| - 1] == s.trackId && h[|h| - 1] == ')'
  {
    var h := BuildDocEntry(s, localeFormat).heading;
    var start := |s.trackName| + |HeadingIdPrefix|;
    assert h == s.trackName + HeadingIdPrefix + s.trackId + ")";
    assert h[start..|h| - 1] == s.trackId;
  }

  /** Two submissions with the same track name and the same heading have the
      same track identifier. */
  lemma HeadingDeterminesTrackId(a: Submission, b: Submission, f: string -> Option<string>, g: string -> Option<string>)
    requires a.trackName == b.trackName
    requires BuildDocEntry(a, f).heading == BuildDocEntry(b, g).heading
    ensures a.trackId == b.trackId
  {
    HeadingRecoversTrackId(a, f);
    HeadingRecoversTrackId(b, g);
  }
}
