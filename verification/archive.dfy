/**
 * The downloadable archive: the transcript as `resultados.txt` and one image
 * file per picture taken under `fotografias/`, each holding the base64
 * payload of the picture's data URL.
 */
module Archive {
  import opened Strings
  import opened Calibration
  import Transcript

  const Marker := "base64,"
  const TranscriptName := "resultados.txt"

  /**
   * The text after the first "base64," of a data URL. As written, the start is
   * `indexOf("base64,") + 7`, so a picture without the marker loses its first
   * six characters (and one shorter than six becomes empty).
   */
  function Payload(pic: string): (r: string)
    ensures IndexOf(pic, Marker) >= 0 ==>
      var at := IndexOf(pic, Marker);
      && pic == pic[..at] + Marker + r
      && forall j :: 0 <= j < at ==> !OccursAt(pic, Marker, j)
    ensures IndexOf(pic, Marker) == -1 ==> r == (if |pic| < 6 then "" else pic[6..])
  {
    var start := IndexOf(pic, Marker) + |Marker|;
    if start <= |pic| then pic[start..] else ""
  }

  /** The file name of the picture at `index`: `fotografia-<index>.png`. */
  function FileName(index: nat): string
  {
    "fotografia-" + Decimal(index) + ".png"
  }

  lemma FileNamesDistinct(i: nat, j: nat)
    ensures FileName(i) == FileName(j) ==> i == j
  {
    if FileName(i) == FileName(j) {
      var a, b := FileName(i), FileName(j);
      assert a[11..|a| - 4] == Decimal(i);
      assert b[11..|b| - 4] == Decimal(j);
      DecimalInjective(i, j);
    }
  }

  /** One file of the archive; `base64` marks content given as base64 text. */
  datatype Entry = Entry(path: string, content: string, base64: bool)

  /** The transcript file followed by one image file per picture, in list order. */
  function Files(results: Results, show: real -> string): (r: seq<Entry>)
    ensures |r| == |results.pictures| + 1
    ensures r[0] == Entry(TranscriptName, Transcript.CalibrationData(results.fields, show), false)
    ensures forall i :: 1 <= i < |r| ==>
      r[i] == Entry(ImagePath(i - 1), Payload(results.pictures[i - 1]), true)
  {
    [Entry(TranscriptName, Transcript.CalibrationData(results.fields, show), false)] +
    seq(|results.pictures|, i requires 0 <= i < |results.pictures| =>
      Entry(ImagePath(i), Payload(results.pictures[i]), true))
  }

  /** The path of the picture at `index` inside the archive. */
  function ImagePath(index: nat): string
  {
    "fotografias/" + FileName(index)
  }

  lemma ImagePathsDistinct(i: nat, j: nat)
    ensures ImagePath(i) == ImagePath(j) ==> i == j
    ensures ImagePath(i) != TranscriptName
  {
    var a := ImagePath(i);
    assert a[0] == 'f';
    if ImagePath(i) == ImagePath(j) {
      assert a[12..] == FileName(i);
      assert ImagePath(j)[12..] == FileName(j);
      FileNamesDistinct(i, j);
    }
  }

  /** No two files of the archive share a path. */
  lemma PathsDistinct(results: Results, show: real -> string, i: nat, j: nat)
    requires i < j < |results.pictures| + 1
    ensures Files(results, show)[i].path != Files(results, show)[j].path
  {
    var fs := Files(results, show);
    assert fs[j].path == ImagePath(j - 1);
    if i == 0 {
      assert fs[i].path == TranscriptName;
      ImagePathsDistinct(j - 1, j - 1);
    } else {
      assert fs[i].path == ImagePath(i - 1);
      ImagePathsDistinct(i - 1, j - 1);
    }
  }

  /** A data URL: `data:<mime>;base64,<payload>`. */
  function DataUrl(mime: string, payload: string): string
  {
    "data:" + mime + ";" + Marker + payload
  }

  /** A string without commas. */
  predicate NoComma(s: string)
  {
    forall i :: 0 <= i < |s| ==> s[i] != ','
  }

  /**
   * Payload extraction inverts the data-URL construction: for a media type
   * without commas, whatever the payload holds, the archive gets exactly the
   * payload back.
   */
  lemma PayloadOfDataUrl(mime: string, payload: string)
    requires NoComma(mime)
    ensures Payload(DataUrl(mime, payload)) == payload
  {
    var s := DataUrl(mime, payload);
    var head := "data:" + mime + ";";
    var at := |head|;
    assert s == head + Marker + payload;
    assert s[at..at + |Marker|] == Marker;
    assert OccursAt(s, Marker, at);
    // any earlier occurrence would put the marker's comma inside `head` or the word "base64"
    assert forall i :: 0 <= i < at + 6 ==> s[i] != ',' by {
      forall i | 0 <= i < at + 6
        ensures s[i] != ','
      {
        if i < at {
          assert s[i] == head[i];
        } else {
          assert s[i] == Marker[i - at];
        }
      }
    }
    forall j | 0 <= j < at
      ensures !OccursAt(s, Marker, j)
    {
      assert s[j..j + |Marker|][6] == s[j + 6] != Marker[6];
    }
    assert IndexOf(s, Marker) == at;
    assert s[at + |Marker|..] == payload;
  }
}
