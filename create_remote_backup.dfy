/** The remote backup use case (`createRemoteBackupUseCase`): runs the orchestrator
    with a sink that uploads the archive to blob storage under the name
    `<YYYY-MM-DD>-<organization>-migration.tar.gz`, and returns the orchestrator's
    answer unchanged. The current date is a parameter. */
module CreateRemoteBackup {
  import opened Common
  import opened CreateBackup

  /** A calendar date as `time.Time.Format(time.DateOnly)` prints it. */
  datatype Date = Date(year: int, month: int, day: int)
  {
    /** Years print as four digits; months and days are in calendar range. */
    predicate Valid() {
      0 <= year <= 9999 && 1 <= month <= 12 && 1 <= day <= 31
    }
  }

  /** BlobRepository.Upload: stores the body under a name, answers a location or an error. */
  type Upload = (string, seq<byte>) -> Result<string>

  const BlobSuffix := "-migration.tar.gz"

  function DigitChar(d: int): (c: char)
    requires 0 <= d < 10
    ensures '0' <= c <= '9'
  {
    (('0' as int) + d) as char
  }

  function DigitValue(c: char): (d: int)
    requires '0' <= c <= '9'
    ensures 0 <= d < 10
  {
    (c as int) - ('0' as int)
  }

  /** `n` in exactly `width` decimal digits, with leading zeros. */
  function Digits(n: int, width: nat): (s: string)
    requires 0 <= n
    ensures |s| == width
    ensures forall i :: 0 <= i < width ==> '0' <= s[i] <= '9'
  {
    if width == 0 then [] else Digits(n / 10, width - 1) + [DigitChar(n % 10)]
  }

  /** The number a string of decimal digits stands for. */
  function Number(s: string): (n: int)
    requires forall i :: 0 <= i < |s| ==> '0' <= s[i] <= '9'
    ensures 0 <= n
  {
    if |s| == 0 then 0 else Number(s[..|s| - 1]) * 10 + DigitValue(s[|s| - 1])
  }

  function Pow10(k: nat): (p: int)
    ensures p >= 1
  {
    if k == 0 then 1 else 10 * Pow10(k - 1)
  }

  /** Reading back the digits of a number that fits gives the number. */
  lemma {:induction false} NumberOfDigits(n: int, width: nat)
    requires 0 <= n < Pow10(width)
    ensures Number(Digits(n, width)) == n
  {
    if width > 0 {
      var s := Digits(n, width);
      assert s[..|s| - 1] == Digits(n / 10, width - 1);
      NumberOfDigits(n / 10, width - 1);
    }
  }

  /** The digits of the number a digit string stands for are that string. */
  lemma {:induction false} DigitsOfNumber(s: string)
    requires forall i :: 0 <= i < |s| ==> '0' <= s[i] <= '9'
    ensures Digits(Number(s), |s|) == s
  {
    if |s| > 0 {
      var init := s[..|s| - 1];
      DigitsOfNumber(init);
      var n := Number(s);
      assert n / 10 == Number(init) && n % 10 == DigitValue(s[|s| - 1]);
      assert s == init + [s[|s| - 1]];
    }
  }

  /** time.DateOnly layout: YYYY-MM-DD. */
  function FormatDateOnly(d: Date): (s: string)
    requires d.Valid()
    ensures |s| == 10 && s[4] == '-' && s[7] == '-'
  {
    Digits(d.year, 4) + "-" + Digits(d.month, 2) + "-" + Digits(d.day, 2)
  }

  predicate IsDigits(s: string) {
    forall i :: 0 <= i < |s| ==> '0' <= s[i] <= '9'
  }

  /** Reads a YYYY-MM-DD string back into a date. */
  function ParseDateOnly(s: string): (r: Option<Date>)
    ensures r.Some? ==> r.value.Valid()
  {
    if |s| == 10 && s[4] == '-' && s[7] == '-' && IsDigits(s[..4]) && IsDigits(s[5..7]) && IsDigits(s[8..]) then
      var d := Date(Number(s[..4]), Number(s[5..7]), Number(s[8..]));
      if d.Valid() then Some(d) else None
    else None
  }

  /** Formatting then parsing gives the date back. */
  lemma ParseFormat(d: Date)
    requires d.Valid()
    ensures ParseDateOnly(FormatDateOnly(d)) == Some(d)
  {
    var s := FormatDateOnly(d);
    var y, m, dd := Digits(d.year, 4), Digits(d.month, 2), Digits(d.day, 2);
    assert s[..4] == y && s[5..7] == m && s[8..] == dd;
    NumberOfDigits(d.year, 4);
    NumberOfDigits(d.month, 2);
    NumberOfDigits(d.day, 2);
  }

  /** A string that parses is the formatting of the date it parses to. */
  lemma FormatParse(s: string)
    requires ParseDateOnly(s).Some?
    ensures FormatDateOnly(ParseDateOnly(s).value) == s
  {
    DigitsOfNumber(s[..4]);
    DigitsOfNumber(s[5..7]);
    DigitsOfNumber(s[8..]);
    assert s == s[..4] + "-" + s[5..7] + "-" + s[8..];
  }

  /** The blob name the sink uploads under. */
  function BlobName(date: string, organization: string): (name: string)
    ensures |name| == |date| + 1 + |organization| + |BlobSuffix|
    ensures name[..|date|] == date && name[|date|] == '-'
    ensures OccursAt(name, organization, |date| + 1)
    ensures EndsWith(name, BlobSuffix)
  {
    var name := date + "-" + organization + BlobSuffix;
    ConcatParts(date + "-", organization, BlobSuffix);
    assert name[..|date|] == date;
    name
  }

  /** On one day, different organizations never share a blob name, and the date can
      be read back from the name. */
  lemma BlobNameDeterminesOrgAndDate(today: Date, org1: string, org2: string)
    requires today.Valid()
    ensures BlobName(FormatDateOnly(today), org1) == BlobName(FormatDateOnly(today), org2) ==> org1 == org2
    ensures ParseDateOnly(BlobName(FormatDateOnly(today), org1)[..10]) == Some(today)
  {
    var date := FormatDateOnly(today);
    var a, b := BlobName(date, org1), BlobName(date, org2);
    if a == b {
      assert |org1| == |org2|;
      assert a[11..11 + |org1|] == org1;
      assert b[11..11 + |org2|] == org2;
    }
    ParseFormat(today);
  }

  /** The sink of createRemoteBackupUseCase.Do: uploads the body unchanged under
      the day's blob name and answers what Upload answers. */
  function RemoteSink(today: Date, organization: string, upload: Upload): (sink: Sink)
    requires today.Valid()
    ensures forall body :: sink(body) == upload(BlobName(FormatDateOnly(today), organization), body)
  {
    body => upload(BlobName(FormatDateOnly(today), organization), body)
  }

  /** createRemoteBackupUseCase.Do: the orchestrator's result with the remote sink. */
  function Do(organization: string, today: Date, env: Collaborators, upload: Upload): (r: Result<string>)
    requires today.Valid() && Finishes(env)
    ensures r.Ok? ==> env.download.Ok? && r == upload(BlobName(FormatDateOnly(today), organization), env.download.value.body)
  {
    SinkAtMostOnce(organization, env, RemoteSink(today, organization, upload));
    Backup(organization, env, RemoteSink(today, organization, upload)).0
  }

  /** The remote run succeeds only by an upload of the downloaded body under the
      day's blob name, whose answer it returns; every other outcome is the
      orchestrator's error. */
  lemma DoReturnsUploadAnswer(organization: string, today: Date, env: Collaborators, upload: Upload)
    requires today.Valid() && Finishes(env)
    ensures Do(organization, today, env, upload).Ok? ==>
              env.download.Ok? &&
              Do(organization, today, env, upload) == upload(BlobName(FormatDateOnly(today), organization), env.download.value.body)
    ensures SaveCount(Backup(organization, env, RemoteSink(today, organization, upload)).1) == 0 ==>
              Do(organization, today, env, upload).Err?
  {
    SinkAtMostOnce(organization, env, RemoteSink(today, organization, upload));
  }

  /** The date of the test: 23 July 2025 prints as 2025-07-23. */
  lemma FormatExample()
    ensures FormatDateOnly(Date(2025, 7, 23)) == "2025-07-23"
  {
    assert Digits(2, 1) == [DigitChar(2)] == "2";
    assert Digits(20, 2) == "2" + [DigitChar(0)] == "20";
    assert Digits(202, 3) == "20" + [DigitChar(2)] == "202";
    assert Digits(2025, 4) == "202" + [DigitChar(5)] == "2025";
    assert Digits(7, 2) == [DigitChar(0)] + [DigitChar(7)] == "07";
    assert Digits(23, 2) == [DigitChar(2)] + [DigitChar(3)] == "23";
  }

  /** An example: the blob name for 23 July 2025 and organization "acme". */
  lemma BlobNameExample()
    ensures BlobName(FormatDateOnly(Date(2025, 7, 23)), "acme") == "2025-07-23-acme-migration.tar.gz"
  {
    FormatExample();
  }
}
