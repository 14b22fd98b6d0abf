/**
 * DatabaseSimulator of sync.py: the shared payload string and its access
 * counter. read and write each count one access and return a report
 * that ends with that access number; get_status previews the payload.
 * The simulated delay (`time.sleep`) and the internal data_mutex are not
 * part of this model: each method is one atomic update.
 */
module Database {
  import opened Optional
  import opened Decimal

  /** The default payload of a new simulator. */
  const InitialContent := "Initial Database Content"

  /** How much of a payload a report or a preview shows. */
  const PreviewLength := 50

  /** `s[:50]`. */
  function Head(s: string): (h: string)
    ensures |h| <= PreviewLength && h <= s
    ensures |s| <= PreviewLength ==> h == s
    ensures |s| > PreviewLength ==> |h| == PreviewLength
  {
    if |s| <= PreviewLength then s else s[..PreviewLength]
  }

  /** The text of one access: `[<role> <id>] <verb>: <payload[:50]>... (Access #<n>)`. */
  function Report(role: string, verb: string, id: int, payload: string, n: nat): string {
    ReportHead(role, verb, id, payload) + "#" + DigitsOf(n) + ")"
  }

  /** Everything of a report before its access number's `#`. */
  function ReportHead(role: string, verb: string, id: int, payload: string): string {
    "[" + role + " " + IntToString(id) + "] " + verb + ": " + Head(payload) + "..." + " (Access "
  }

  function ReadReport(readerId: int, data: string, n: nat): string {
    Report("Reader", "Read", readerId, data, n)
  }

  function WriteReport(writerId: int, newData: string, n: nat): string {
    Report("Writer", "Wrote", writerId, newData, n)
  }

  /** The access number a report ends with: the digits between `#` and the closing `)`. */
  function AccessNumber(report: string): (r: Option<nat>)
    ensures r.Some? ==> |report| >= 3 && report[|report| - 1] == ')'
  {
    if |report| == 0 || report[|report| - 1] != ')' then None
    else
      var body := report[..|report| - 1];
      var digits := TrailingDigits(body);
      if |digits| == 0 || |digits| == |body| || body[|body| - |digits| - 1] != '#' then None
      else Some(ValueOf(digits))
  }

  /** Whatever stands before the `#`, the number after it is read back. */
  lemma AccessNumberAfter(head: string, n: nat)
    ensures AccessNumber(head + "#" + DigitsOf(n) + ")") == Some(n)
  {
    var digits := DigitsOf(n);
    var report := head + "#" + digits + ")";
    var body := report[..|report| - 1];
    assert body == head + ['#'] + digits;
    TrailingDigitsAfter(head, '#', digits);
    assert body[|body| - |digits| - 1] == '#';
    ValueOfDigitsOf(n);
  }

  /** Every report gives back the access number it was built with. */
  lemma ReportAccessNumber(role: string, verb: string, id: int, payload: string, n: nat)
    ensures AccessNumber(Report(role, verb, id, payload, n)) == Some(n)
  {
    AccessNumberAfter(ReportHead(role, verb, id, payload), n);
  }

  /** A read report carries the access number it counted. */
  lemma ReadReportAccessNumber(readerId: int, data: string, n: nat)
    ensures AccessNumber(ReadReport(readerId, data, n)) == Some(n)
  {
    ReportAccessNumber("Reader", "Read", readerId, data, n);
  }

  /** A write report carries the access number it counted. */
  lemma WriteReportAccessNumber(writerId: int, newData: string, n: nat)
    ensures AccessNumber(WriteReport(writerId, newData, n)) == Some(n)
  {
    ReportAccessNumber("Writer", "Wrote", writerId, newData, n);
  }

  /** get_status's `data_preview`: the payload itself when short, else its first 50 characters and "...". */
  function Preview(s: string): (p: string)
    ensures |p| <= PreviewLength + 3
    ensures |s| <= PreviewLength ==> p == s
    ensures |s| > PreviewLength ==> |p| == PreviewLength + 3 && p[..PreviewLength] == s[..PreviewLength]
                                    && p[PreviewLength..] == "..."
  {
    if |s| > PreviewLength then s[..PreviewLength] + "..." else s
  }

  datatype DatabaseStatus = DatabaseStatus(dataPreview: string, accessCount: nat, dataLength: nat)

  class DatabaseSimulator {
    var data: string
    var accessCount: nat

    constructor (initialData: string)
      ensures data == initialData && accessCount == 0
    {
      data := initialData;
      accessCount := 0;
    }

    /** read: the payload is untouched, one more access is counted and reported. */
    method Read(readerId: int) returns (report: string)
      modifies this
      ensures data == old(data) && accessCount == old(accessCount) + 1
      ensures report == ReadReport(readerId, data, accessCount)
    {
      accessCount := accessCount + 1;
      report := ReadReport(readerId, data, accessCount);
    }

    /** write: the payload is replaced, one more access is counted and reported. */
    method Write(writerId: int, newData: string) returns (report: string)
      modifies this
      ensures data == newData && accessCount == old(accessCount) + 1
      ensures report == WriteReport(writerId, newData, accessCount)
    {
      data := newData;
      accessCount := accessCount + 1;
      report := WriteReport(writerId, newData, accessCount);
    }

    /** get_status: a read of the state that changes nothing. */
    function GetStatus(): (st: DatabaseStatus)
      reads this
      ensures st.dataLength == |data| && st.accessCount == accessCount
      ensures |st.dataPreview| <= PreviewLength + 3
      ensures |data| <= PreviewLength ==> st.dataPreview == data
      ensures |data| > PreviewLength ==> |st.dataPreview| == PreviewLength + 3
                                         && st.dataPreview[..PreviewLength] == data[..PreviewLength]
                                         && st.dataPreview[PreviewLength..] == "..."
    {
      DatabaseStatus(Preview(data), accessCount, |data|)
    }
  }
}
