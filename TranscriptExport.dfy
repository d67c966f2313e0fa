/**
 * The transcript export: the document heading, one labelled paragraph per
 * user or assistant turn of the history, and the name of the exported file.
 * The word-processor file itself is not modelled; a document is its heading
 * and its paragraphs in order.
 */
module TranscriptExport {
  import opened Conversation

  datatype Document = Document(heading: string, paragraphs: seq<string>)

  const HeadingPrefix := "Marketing Analysis \U{2013} "
  const UserLabel := "User:\n"
  const AssistantLabel := "Kimbell Analysis:\n"

  /** The title heading of the exported document: the fixed title, then the selected month. */
  function Heading(month: string): (r: string)
    ensures |r| == |HeadingPrefix| + |month|
    ensures r[..|HeadingPrefix|] == HeadingPrefix && r[|HeadingPrefix|..] == month
  {
    HeadingPrefix + month
  }

  /**
   * The paragraph that shows a user or assistant turn: its speaker label, then
   * its content. The two labels cannot be confused, so the paragraph reads back
   * as the same turn.
   */
  function Render(t: Turn): (r: string)
    requires t.role != System
    ensures ParseParagraph(r) == Some(t)
  {
    var r := (if t.role == User then UserLabel else AssistantLabel) + t.content;
    if t.role == User then
      assert r[..|UserLabel|] == UserLabel && r[|UserLabel|..] == t.content;
      r
    else
      assert r[..|UserLabel|] != UserLabel by { assert r[0] == 'K'; }
      assert r[..|AssistantLabel|] == AssistantLabel && r[|AssistantLabel|..] == t.content;
      r
  }

  /** The turns of a history that the export shows, in history order. */
  function Spoken(h: seq<Turn>): (r: seq<Turn>)
    ensures |r| <= |h|
    ensures forall t :: t in r <==> t in h && t.role != System
  {
    if h == [] then []
    else
      assert h == [h[0]] + h[1..];
      if h[0].role == System then Spoken(h[1..])
      else [h[0]] + Spoken(h[1..])
  }

  /** Spoken keeps order: the spoken turns of a joined history are those of each part, in turn. */
  lemma {:induction false} SpokenAppend(a: seq<Turn>, b: seq<Turn>)
    ensures Spoken(a + b) == Spoken(a) + Spoken(b)
  {
    if a != [] {
      assert (a + b)[1..] == a[1..] + b;
      SpokenAppend(a[1..], b);
    } else {
      assert a + b == b;
    }
  }

  /** A history without system turns is shown whole. */
  lemma {:induction false} SpokenNoSystem(h: seq<Turn>)
    requires forall i :: 0 <= i < |h| ==> h[i].role != System
    ensures Spoken(h) == h
  {
    if h != [] {
      SpokenNoSystem(h[1..]);
    }
  }

  /**
   * The paragraphs the export writes for a history, one per turn, system turns
   * skipped: each paragraph reads back as a user or assistant turn of the history.
   */
  function Transcript(h: seq<Turn>): (r: seq<string>)
    ensures |r| <= |h|
    ensures forall p :: p in r ==>
              ParseParagraph(p).Some? && ParseParagraph(p).value in h && ParseParagraph(p).value.role != System
  {
    if h == [] then []
    else
      assert h == [h[0]] + h[1..];
      if h[0].role == System then Transcript(h[1..])
      else [Render(h[0])] + Transcript(h[1..])
  }

  /** Exporting a longer history only adds the paragraphs of the added turns. */
  lemma {:induction false} TranscriptAppend(a: seq<Turn>, b: seq<Turn>)
    ensures Transcript(a + b) == Transcript(a) + Transcript(b)
  {
    if a != [] {
      assert (a + b)[1..] == a[1..] + b;
      TranscriptAppend(a[1..], b);
    } else {
      assert a + b == b;
    }
  }

  /**
   * The transcript has exactly one paragraph per user or assistant turn, and
   * its i-th paragraph renders the i-th such turn.
   */
  lemma {:induction false} TranscriptRendersSpoken(h: seq<Turn>)
    ensures |Transcript(h)| == |Spoken(h)|
    ensures forall i :: 0 <= i < |Spoken(h)| ==> Transcript(h)[i] == Render(Spoken(h)[i])
  {
    if h != [] {
      var rest := h[1..];
      TranscriptRendersSpoken(rest);
      if h[0].role != System {
        assert Spoken(h) == [h[0]] + Spoken(rest);
        assert Transcript(h) == [Render(h[0])] + Transcript(rest);
        forall i | 0 < i < |Spoken(h)|
          ensures Transcript(h)[i] == Render(Spoken(h)[i])
        {
          assert Spoken(h)[i] == Spoken(rest)[i - 1];
          assert Transcript(h)[i] == Transcript(rest)[i - 1];
        }
      } else {
        assert Spoken(h) == Spoken(rest) && Transcript(h) == Transcript(rest);
      }
    }
  }

  /** Reads a paragraph back as the turn it shows; None for a paragraph with neither label. */
  function ParseParagraph(p: string): Option<Turn> {
    if |p| >= |UserLabel| && p[..|UserLabel|] == UserLabel then
      Some(Turn(User, p[|UserLabel|..]))
    else if |p| >= |AssistantLabel| && p[..|AssistantLabel|] == AssistantLabel then
      Some(Turn(Assistant, p[|AssistantLabel|..]))
    else
      None
  }

  /** Reads a whole transcript back as the turns it shows; None if some paragraph has no label. */
  function ParseTranscript(ps: seq<string>): Option<seq<Turn>> {
    if ps == [] then Some([])
    else match (ParseParagraph(ps[0]), ParseTranscript(ps[1..]))
      case (Some(t), Some(ts)) => Some([t] + ts)
      case _ => None
  }

  /** The export loses nothing but the system turns: the transcript reads back as the spoken turns. */
  lemma {:induction false} TranscriptRoundTrip(h: seq<Turn>)
    ensures ParseTranscript(Transcript(h)) == Some(Spoken(h))
  {
    if h != [] {
      TranscriptRoundTrip(h[1..]);
      if h[0].role != System {
        assert ([Render(h[0])] + Transcript(h[1..]))[1..] == Transcript(h[1..]);
      }
    }
  }

  /**
   * In a history that starts with the system instructions and holds no other
   * system turn, every turn but the first gets a paragraph.
   */
  lemma {:induction false} TranscriptAfterSystem(h: seq<Turn>)
    requires |h| >= 1 && h[0].role == System
    requires forall i :: 1 <= i < |h| ==> h[i].role != System
    ensures |Transcript(h)| == |h| - 1
  {
    NoSystemTranscript(h[1..]);
  }

  lemma {:induction false} NoSystemTranscript(h: seq<Turn>)
    requires forall i :: 0 <= i < |h| ==> h[i].role != System
    ensures |Transcript(h)| == |h|
  {
    if h != [] {
      NoSystemTranscript(h[1..]);
    }
  }

  // The fixed pieces of the exported file's name around the month and the timestamp.
  const FilePrefix := "Analysis_"
  const FileSep := "_"
  const FileSuffix := ".docx"

  /**
   * The name of the exported file: the month, then the export time as the
   * caller formats it, always with the "Analysis_" prefix and the ".docx" extension.
   */
  function ExportFilename(month: string, timestamp: string): (r: string)
    ensures |r| == |FilePrefix| + |month| + |FileSep| + |timestamp| + |FileSuffix|
    ensures r[..|FilePrefix|] == FilePrefix && r[|r| - |FileSuffix|..] == FileSuffix
    ensures r[|FilePrefix|..|FilePrefix| + |month|] == month
  {
    FilePrefix + month + FileSep + timestamp + FileSuffix
  }

  /**
   * Reads the month and the timestamp back out of a file name; None when it is
   * not such a name. The month is read as a slice of MonthWidth characters, the
   * width of every selectable month (ValidMonthWidth).
   */
  function ParseFilename(f: string): Option<(string, string)> {
    var m := |FilePrefix|;
    var t := m + MonthWidth + |FileSep|;
    if |f| >= t + |FileSuffix| && f[..m] == FilePrefix && ValidMonth(f[m..m + MonthWidth])
       && f[m + MonthWidth..t] == FileSep && f[|f| - |FileSuffix|..] == FileSuffix
    then Some((f[m..m + MonthWidth], f[t..|f| - |FileSuffix|]))
    else None
  }

  /** The file name determines the month and the timestamp it was built from. */
  lemma FilenameRoundTrip(month: string, timestamp: string)
    requires ValidMonth(month)
    ensures ParseFilename(ExportFilename(month, timestamp)) == Some((month, timestamp))
  {
  }

  /** Every name ParseFilename accepts is the export file name of what it reads out. */
  lemma ParseFilenameSound(f: string, month: string, timestamp: string)
    requires ParseFilename(f) == Some((month, timestamp))
    ensures ValidMonth(month) && ExportFilename(month, timestamp) == f
  {
  }

  /** Two exports of different months, or at different times, never share a file name. */
  lemma FilenameInjective(m1: string, t1: string, m2: string, t2: string)
    requires ValidMonth(m1) && ValidMonth(m2)
    requires ExportFilename(m1, t1) == ExportFilename(m2, t2)
    ensures m1 == m2 && t1 == t2
  {
    FilenameRoundTrip(m1, t1);
    FilenameRoundTrip(m2, t2);
  }
}
