/** The Apps Script form-submit trigger (apps-script/index.ts): turns the
    form's named values into a submission and appends its formatted entry
    to the playlist document's body. */
module DocTrigger {
  import opened Wrappers
  import opened DocFormat

  /** A block of the document body. `heading` is the ParagraphHeading level
      (0 for a normal paragraph). */
  datatype DocItem = Paragraph(text: string, heading: nat, bold: bool) | HorizontalRule

  /** The document body: an ordered list of blocks that the trigger only
      appends to, plus the two paragraph setters it uses. */
  class DocBody {
    var items: seq<DocItem>

    constructor (initial: seq<DocItem>)
      ensures items == initial
    {
      items := initial;
    }

    /** `appendParagraph(text)`; the paragraph is designated by its position. */
    method AppendParagraph(text: string) returns (index: nat)
      modifies this
      ensures items == old(items) + [Paragraph(text, 0, false)]
      ensures index == |old(items)|
    {
      index := |items|;
      items := items + [Paragraph(text, 0, false)];
    }

    /** `paragraph.setHeading(level)` */
    method SetHeading(index: nat, level: nat)
      requires index < |items| && items[index].Paragraph?
      modifies this
      ensures items == old(items)[index := old(items)[index].(heading := level)]
    {
      items := items[index := items[index].(heading := level)];
    }

    /** `paragraph.setBold(isBold)` */
    method SetBold(index: nat, isBold: bool)
      requires index < |items| && items[index].Paragraph?
      modifies this
      ensures items == old(items)[index := old(items)[index].(bold := isBold)]
    {
      items := items[index := items[index].(bold := isBold)];
    }

    /** `appendHorizontalRule()` */
    method AppendHorizontalRule()
      modifies this
      ensures items == old(items) + [HorizontalRule]
    {
      items := items + [HorizontalRule];
    }
  }

  /** One normal paragraph per metadata entry, reading `label: value`. */
  function MetadataParagraphs(ms: seq<MetaEntry>): (ps: seq<DocItem>)
    ensures |ps| == |ms|
    ensures forall i :: 0 <= i < |ms| ==> ps[i] == Paragraph(ms[i].labelText + ": " + ms[i].value, 0, false)
  {
    if ms == [] then [] else [Paragraph(ms[0].labelText + ": " + ms[0].value, 0, false)] + MetadataParagraphs(ms[1..])
  }

  lemma MetadataParagraphsSnoc(ms: seq<MetaEntry>, i: nat)
    requires i < |ms|
    ensures MetadataParagraphs(ms[..i + 1])
         == MetadataParagraphs(ms[..i]) + [Paragraph(ms[i].labelText + ": " + ms[i].value, 0, false)]
  {
    var a := MetadataParagraphs(ms[..i + 1]);
    var b := MetadataParagraphs(ms[..i]) + [Paragraph(ms[i].labelText + ": " + ms[i].value, 0, false)];
    assert |a| == |b|;
    forall k | 0 <= k < |a| ensures a[k] == b[k] {
      assert ms[..i + 1][k] == ms[k];
    }
  }

  /** The blocks one entry adds: bold level-2 heading, metadata lines, rule. */
  function EntryItems(e: DocEntry): (items: seq<DocItem>)
    ensures |items| == |e.metadata| + 2
    ensures items[0] == Paragraph(e.heading, 2, true)
    ensures forall i :: 0 <= i < |e.metadata| ==>
      items[i + 1] == Paragraph(e.metadata[i].labelText + ": " + e.metadata[i].value, 0, false)
    ensures items[|items| - 1] == HorizontalRule
  {
    [Paragraph(e.heading, 2, true)] + MetadataParagraphs(e.metadata) + [HorizontalRule]
  }

  /** A formatted submission adds exactly eight blocks: the bold level-2
      heading, the six `label: value` lines in label order, and a rule. */
  lemma EntryLayout(s: Submission, localeFormat: string -> Option<string>)
    ensures var e := BuildDocEntry(s, localeFormat);
      var items := EntryItems(e);
      && |items| == 8
      && items[0] == Paragraph(s.trackName + HeadingIdPrefix + s.trackId + ")", 2, true)
      && (forall i :: 1 <= i <= 6 ==> items[i] == Paragraph(Labels[i - 1] + ": " + e.metadata[i - 1].value, 0, false))
      && items[7] == HorizontalRule
  {
  }

  /** The `forEach` of index.ts:35-37: one `label: value` paragraph per
      metadata entry, appended in order. */
  method AppendMetadata(body: DocBody, metadata: seq<MetaEntry>)
    modifies body
    ensures body.items == old(body.items) + MetadataParagraphs(metadata)
  {
    var i := 0;
    while i < |metadata|
      invariant 0 <= i <= |metadata|
      invariant body.items == old(body.items) + MetadataParagraphs(metadata[..i])
    {
      var line := metadata[i].labelText + ": " + metadata[i].value;
      var _ := body.AppendParagraph(line);
      MetadataParagraphsSnoc(metadata, i);
      i := i + 1;
    }
    assert metadata[..i] == metadata;
  }

  /** The appends of index.ts:32-39 for an already formatted entry: a
      paragraph made a bold level-2 heading, the metadata lines, a rule. */
  method AppendEntry(body: DocBody, entry: DocEntry)
    modifies body
    ensures body.items == old(body.items) + EntryItems(entry)
  {
    var heading := body.AppendParagraph(entry.heading);
    body.SetHeading(heading, 2);
    body.SetBold(heading, true);
    assert body.items == old(body.items) + [Paragraph(entry.heading, 2, true)];
    ghost var lines := MetadataParagraphs(entry.metadata);
    AppendMetadata(body, entry.metadata);
    body.AppendHorizontalRule();
    assert body.items == old(body.items) + ([Paragraph(entry.heading, 2, true)] + lines + [HorizontalRule]);
  }

  /** `appendSubmissionToDoc` (index.ts:27-40): the body gains the entry's
      blocks at its end and nothing already there changes. */
  method AppendSubmissionToDoc(body: DocBody, submission: Submission, localeFormat: string -> Option<string>)
    modifies body
    ensures body.items == old(body.items) + EntryItems(BuildDocEntry(submission, localeFormat))
    ensures body.items[..|old(body.items)|] == old(body.items)
  {
    var entry := BuildDocEntry(submission, localeFormat);
    AppendEntry(body, entry);
  }

  /** The form's `namedValues`: each question title maps to its answers. */
  type NamedValues = map<string, seq<string>>

  /** `namedValues[name]?.[0]`: the first answer, if there is one. */
  function FirstValue(nv: NamedValues, name: string): (r: Option<string>)
    ensures r.Some? <==> name in nv && |nv[name]| > 0
    ensures r.Some? ==> r.value == nv[name][0]
  {
    if name in nv && |nv[name]| > 0 then Some(nv[name][0]) else None
  }

  /** The submission record `onFormSubmit` builds (index.ts:53-62);
      `submittedAtIso` is the current time, an input here. */
  function SubmissionFromNamedValues(nv: NamedValues, submittedAtIso: string): (s: Submission)
    ensures s.trackId == FirstValue(nv, "Track ID").GetOr("")
    ensures s.trackName == FirstValue(nv, "Track Name").GetOr("Unknown Track")
    ensures s.artistName == FirstValue(nv, "Artist Name").GetOr("Unknown Artist")
    ensures s.albumName == FirstValue(nv, "Album Name")
    ensures s.requesterName == FirstValue(nv, "Requester Name")
    ensures s.dedication == FirstValue(nv, "Dedication")
    ensures s.contact == FirstValue(nv, "Contact")
    ensures s.submittedAtIso == submittedAtIso
  {
    Submission(
      FirstValue(nv, "Track ID").GetOr(""),
      FirstValue(nv, "Track Name").GetOr("Unknown Track"),
      FirstValue(nv, "Artist Name").GetOr("Unknown Artist"),
      FirstValue(nv, "Album Name"),
      FirstValue(nv, "Requester Name"),
      FirstValue(nv, "Dedication"),
      FirstValue(nv, "Contact"),
      submittedAtIso)
  }

  /** With no answers at all, every field takes its default. */
  lemma NoAnswersGiveDefaults(submittedAtIso: string)
    ensures SubmissionFromNamedValues(map[], submittedAtIso)
         == Submission("", "Unknown Track", "Unknown Artist", None, None, None, None, submittedAtIso)
  {
  }

  /** An encoding of `s` as named values: one answer per supplied field, and
      no entry for an optional field that is absent. */
  function NamedValuesOf(s: Submission): NamedValues {
    var required := map["Track ID" := [s.trackId], "Track Name" := [s.trackName], "Artist Name" := [s.artistName]];
    var withAlbum := if s.albumName.Some? then required["Album Name" := [s.albumName.value]] else required;
    var withName := if s.requesterName.Some? then withAlbum["Requester Name" := [s.requesterName.value]] else withAlbum;
    var withDedication := if s.dedication.Some? then withName["Dedication" := [s.dedication.value]] else withName;
    if s.contact.Some? then withDedication["Contact" := [s.contact.value]] else withDedication
  }

  /** Reading back the named values of a submission gives the submission. */
  lemma NamedValuesRoundTrip(s: Submission)
    ensures SubmissionFromNamedValues(NamedValuesOf(s), s.submittedAtIso) == s
  {
    var nv := NamedValuesOf(s);
    assert FirstValue(nv, "Track ID") == Some(s.trackId);
    assert FirstValue(nv, "Track Name") == Some(s.trackName);
    assert FirstValue(nv, "Artist Name") == Some(s.artistName);
  }

  /** Only the first answer of a question is used: further answers change nothing. */
  lemma OnlyFirstAnswerUsed(nv: NamedValues, name: string, more: seq<string>, submittedAtIso: string)
    requires name in nv && |nv[name]| > 0
    ensures SubmissionFromNamedValues(nv[name := nv[name] + more], submittedAtIso)
         == SubmissionFromNamedValues(nv, submittedAtIso)
  {
    var nv' := nv[name := nv[name] + more];
    forall q ensures FirstValue(nv', q) == FirstValue(nv, q) {
      if q == name {
        assert nv'[q][0] == nv[q][0];
      }
    }
  }

  /** `onFormSubmit` (index.ts:49-65): the document body and the current
      time are inputs standing for `DocumentApp.openById(...).getBody()`
      and `new Date().toISOString()`. */
  method OnFormSubmit(body: DocBody, nv: NamedValues, nowIso: string, localeFormat: string -> Option<string>)
    modifies body
    ensures body.items == old(body.items)
      + EntryItems(BuildDocEntry(SubmissionFromNamedValues(nv, nowIso), localeFormat))
  {
    var submission := SubmissionFromNamedValues(nv, nowIso);
    AppendSubmissionToDoc(body, submission, localeFormat);
  }
}
