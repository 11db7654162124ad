// The shared vocabulary: job statuses, identifiers and the per-job dataset table name.

module Domain {

  datatype Option<+T> = None | Some(value: T)

  /** The lifecycle of an ingestion job. */
  datatype JobStatus = Queued | Downloading | Inferring | Ingesting | Ready | Failed
  {
    predicate IsTerminal() {
      Ready? || Failed?
    }

    /** The next status on the happy path. */
    function Next(): Option<JobStatus> {
      match this
      case Queued => Some(Downloading)
      case Downloading => Some(Inferring)
      case Inferring => Some(Ingesting)
      case Ingesting => Some(Ready)
      case Ready => None
      case Failed => None
    }

    predicate CanTransitionTo(to: JobStatus) {
      !IsTerminal() && (to == Failed || Next() == Some(to))
    }
  }

  /** The transitions in full: along the pipeline, and from any of its stages to `failed`. */
  lemma TransitionsExact(a: JobStatus, b: JobStatus)
    ensures a.CanTransitionTo(b) <==>
              (a, b) in {(Queued, Downloading), (Downloading, Inferring), (Inferring, Ingesting), (Ingesting, Ready),
                         (Queued, Failed), (Downloading, Failed), (Inferring, Failed), (Ingesting, Failed)}
  {
  }

  /** A 128-bit identifier. */
  type Uuid = n: int | 0 <= n < 0x1_00000000_00000000_00000000_00000000

  function HexDigit(d: nat): (c: char)
    requires d < 16
  {
    "0123456789abcdef"[d]
  }

  /** The low `width` hexadecimal digits of `n`, most significant first. */
  function Hex(n: nat, width: nat): (s: string)
    ensures |s| == width
  {
    if width == 0 then "" else Hex(n / 16, width - 1) + [HexDigit(n % 16)]
  }

  function Pow16(width: nat): (p: nat)
    ensures p > 0
  {
    if width == 0 then 1 else 16 * Pow16(width - 1)
  }

  /** Fixed-width hexadecimal loses nothing as long as the number fits. */
  lemma {:induction false} HexInjective(a: nat, b: nat, width: nat)
    requires a < Pow16(width) && b < Pow16(width)
    requires Hex(a, width) == Hex(b, width)
    ensures a == b
  {
    if width > 0 {
      var ha, hb := Hex(a, width), Hex(b, width);
      assert ha[..width - 1] == Hex(a / 16, width - 1);
      assert hb[..width - 1] == Hex(b / 16, width - 1);
      assert ha[width - 1] == HexDigit(a % 16) && hb[width - 1] == HexDigit(b % 16);
      HexInjective(a / 16, b / 16, width - 1);
    }
  }

  function DigitValue(c: char): nat {
    if '0' <= c <= '9' then c as int - '0' as int else if 'a' <= c <= 'f' then c as int - 'a' as int + 10 else 0
  }

  /** The number a hexadecimal text stands for. */
  function HexValue(s: string): nat {
    if s == "" then 0 else 16 * HexValue(s[..|s| - 1]) + DigitValue(s[|s| - 1])
  }

  /** A number that fits reads back from its rendering. */
  lemma {:induction false} HexReadsBack(n: nat, width: nat)
    requires n < Pow16(width)
    ensures HexValue(Hex(n, width)) == n
  {
    if width > 0 {
      var h := Hex(n, width);
      assert h[..width - 1] == Hex(n / 16, width - 1) && h[width - 1] == HexDigit(n % 16);
      HexReadsBack(n / 16, width - 1);
      DigitReadsBack(n % 16);
    }
  }

  lemma DigitReadsBack(d: nat)
    requires d < 16
    ensures DigitValue(HexDigit(d)) == d
  {
  }

  /** The hyphen-free rendering of an identifier. */
  function Simple(id: Uuid): (s: string)
    ensures |s| == 32
  {
    Hex(id, 32)
  }

  /** `u{user}_j{job}`: the ClickHouse table of one job. */
  function DatasetTableName(user: Uuid, job: Uuid): string {
    "u" + Simple(user) + "_j" + Simple(job)
  }

  lemma UuidFits(id: Uuid)
    ensures id < Pow16(32)
  {
    assert Pow16(8) == 0x1_00000000;
    assert Pow16(16) == 0x1_00000000_00000000;
    assert Pow16(24) == 0x1_00000000_00000000_00000000;
    assert Pow16(32) == 0x1_00000000_00000000_00000000_00000000;
  }

  /** The table name is `u`, the user's 32 hexadecimal digits, `_j` and the job's. */
  lemma DatasetTableNameParts(user: Uuid, job: Uuid)
    ensures var name := DatasetTableName(user, job);
            && |name| == 67 && name[..1] == "u" && name[33..35] == "_j"
            && HexValue(name[1..33]) == user && HexValue(name[35..]) == job
  {
    var name := DatasetTableName(user, job);
    assert name[1..33] == Simple(user) && name[35..] == Simple(job);
    UuidFits(user);
    UuidFits(job);
    HexReadsBack(user, 32);
    HexReadsBack(job, 32);
  }

  /** Different jobs, or the same job id under different users, never share a table. */
  lemma DatasetTableNameInjective(u1: Uuid, j1: Uuid, u2: Uuid, j2: Uuid)
    requires DatasetTableName(u1, j1) == DatasetTableName(u2, j2)
    ensures u1 == u2 && j1 == j2
  {
    var a, b := DatasetTableName(u1, j1), DatasetTableName(u2, j2);
    assert a[1..33] == Simple(u1) && a[35..] == Simple(j1);
    assert b[1..33] == Simple(u2) && b[35..] == Simple(j2);
    UuidFits(u1);
    UuidFits(u2);
    UuidFits(j1);
    UuidFits(j2);
    HexInjective(u1, u2, 32);
    HexInjective(j1, j2, 32);
  }
}
