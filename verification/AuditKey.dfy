/** Object keys of the audit archive: building, decoding, and the tenant/day prefix used for listings. */
module AuditKey {
  import opened Options

  // ---------------------------------------------------------------- calendar

  datatype Date = Date(year: nat, month: nat, day: nat)

  predicate Leap(year: nat) {
    year % 4 == 0 && (year % 100 != 0 || year % 400 == 0)
  }

  function DaysIn(year: nat, month: nat): nat {
    if month == 2 then (if Leap(year) then 29 else 28)
    else if month == 4 || month == 6 || month == 9 || month == 11 then 30
    else 31
  }

  predicate ValidDate(d: Date) {
    1 <= d.month <= 12 && 1 <= d.day <= DaysIn(d.year, d.month)
  }

  function NextDay(d: Date): Date {
    if d.day < DaysIn(d.year, d.month) then d.(day := d.day + 1)
    else if d.month < 12 then Date(d.year, d.month + 1, 1)
    else Date(d.year + 1, 1, 1)
  }

  /** The date `n` days after 0001-01-01 in the proleptic Gregorian calendar. */
  function DateOf(n: nat): (d: Date)
    ensures ValidDate(d)
  {
    if n == 0 then Date(1, 1, 1) else NextDay(DateOf(n - 1))
  }

  predicate Before(a: Date, b: Date) {
    a.year < b.year || (a.year == b.year && (a.month < b.month || (a.month == b.month && a.day < b.day)))
  }

  lemma {:induction false} DatesIncrease(m: nat, n: nat)
    requires m < n
    ensures Before(DateOf(m), DateOf(n))
  {
    if m < n - 1 { DatesIncrease(m, n - 1); }
  }

  lemma DateIdentifiesDay(m: nat, n: nat)
    requires DateOf(m) == DateOf(n)
    ensures m == n
  {
    if m < n { DatesIncrease(m, n); } else if n < m { DatesIncrease(n, m); }
  }

  // ---------------------------------------------------------------- instants, in microseconds UTC

  const DAY := 86_400_000_000
  const HOUR := 3_600_000_000

  function DayOf(t: nat): nat { t / DAY }

  function HourOf(t: nat): nat { t % DAY / HOUR }

  /** `[start, end)` of a UTC day. */
  function DayWindow(day: nat): (nat, nat) { (day * DAY, day * DAY + DAY) }

  lemma InWindowIffSameDay(t: nat, day: nat)
    ensures DayWindow(day).0 <= t < DayWindow(day).1 <==> DayOf(t) == day
  {}

  // ---------------------------------------------------------------- fields

  function Digit(n: nat): char
    requires n < 10
  {
    '0' + n as char
  }

  /** Zero-padded decimal, the low `width` digits. */
  function Pad(n: nat, width: nat): (s: string)
    ensures |s| == width && '/' !in s
  {
    if width == 0 then "" else Pad(n / 10, width - 1) + [Digit(n % 10)]
  }

  function Pow10(k: nat): nat { if k == 0 then 1 else 10 * Pow10(k - 1) }

  lemma {:induction false} PadInjective(a: nat, b: nat, width: nat)
    requires a < Pow10(width) && b < Pow10(width) && Pad(a, width) == Pad(b, width)
    ensures a == b
  {
    if width > 0 {
      var pa, pb := Pad(a, width), Pad(b, width);
      assert pa[..width - 1] == Pad(a / 10, width - 1) && pb[..width - 1] == Pad(b / 10, width - 1);
      assert pa[width - 1] == Digit(a % 10) && pb[width - 1] == Digit(b % 10);
      PadInjective(a / 10, b / 10, width - 1);
    }
  }

  predicate Hex(c: char) { '0' <= c <= '9' || 'a' <= c <= 'f' }

  /** The canonical text of a UUID. */
  predicate IsUuid(s: string) {
    |s| == 36 && forall i | 0 <= i < 36 :: if i == 8 || i == 13 || i == 18 || i == 23 then s[i] == '-' else Hex(s[i])
  }

  // ---------------------------------------------------------------- keys

  datatype AuditEvent = AuditEvent(id: string, tenant: string, createdAt: nat)

  /** Ids are UUIDs and the year has four digits, as `datetime` guarantees. */
  predicate ValidEvent(e: AuditEvent) {
    IsUuid(e.id) && IsUuid(e.tenant) && DateOf(DayOf(e.createdAt)).year <= 9999
  }

  const SUFFIX := ".json.gz"

  function DayPrefix(tenant: string, day: nat): string {
    var d := DateOf(day);
    "tenant_id=" + tenant + "/year=" + Pad(d.year, 4) + "/month=" + Pad(d.month, 2) + "/day=" + Pad(d.day, 2) + "/"
  }

  function S3Key(e: AuditEvent): string {
    DayPrefix(e.tenant, DayOf(e.createdAt)) + ("hour=" + Pad(HourOf(e.createdAt), 2) + "/" + e.id + SUFFIX)
  }

  function Basename(key: string): string
    decreases |key|
  {
    if key == "" || key[|key| - 1] == '/' then "" else Basename(key[..|key| - 1]) + [key[|key| - 1]]
  }

  /** `None` is the source's `ValueError`. */
  function EventIdFromKey(key: string): Option<string> {
    var base := Basename(key);
    if |base| < |SUFFIX| || base[|base| - |SUFFIX|..] != SUFFIX then None
    else
      var id := base[..|base| - |SUFFIX|];
      if IsUuid(id) then Some(id) else None
  }

  lemma {:induction false} BasenameAfterSlash(dir: string, base: string)
    requires '/' !in base
    ensures Basename(dir + "/" + base) == base
    decreases |base|
  {
    var key := dir + "/" + base;
    if base != "" {
      var init := base[..|base| - 1];
      assert key[..|key| - 1] == dir + "/" + init;
      BasenameAfterSlash(dir, init);
    }
  }

  lemma UuidHasNoSlash(s: string)
    requires IsUuid(s)
    ensures '/' !in s
  {
    forall i | 0 <= i < 36 ensures s[i] != '/' {}
  }

  /** Decoding any event's key gives its id. */
  lemma KeyRoundTrip(e: AuditEvent)
    requires ValidEvent(e)
    ensures EventIdFromKey(S3Key(e)) == Some(e.id)
  {
    var dir := DayPrefix(e.tenant, DayOf(e.createdAt)) + ("hour=" + Pad(HourOf(e.createdAt), 2));
    var base := e.id + SUFFIX;
    assert S3Key(e) == dir + "/" + base;
    UuidHasNoSlash(e.id);
    BasenameAfterSlash(dir, base);
    assert base[36..] == SUFFIX && base[..36] == e.id;
  }

  /** Every field of a prefix sits at a fixed position. */
  lemma PrefixFields(tenant: string, day: nat)
    requires IsUuid(tenant)
    ensures var p, d := DayPrefix(tenant, day), DateOf(day);
            && |p| == 73 && p[10..46] == tenant
            && p[52..56] == Pad(d.year, 4) && p[63..65] == Pad(d.month, 2) && p[70..72] == Pad(d.day, 2)
  {}

  lemma PrefixInjective(tenant: string, day: nat, tenant': string, day': nat)
    requires IsUuid(tenant) && IsUuid(tenant')
    requires DateOf(day).year <= 9999 && DateOf(day').year <= 9999
    requires DayPrefix(tenant, day) == DayPrefix(tenant', day')
    ensures tenant == tenant' && day == day'
  {
    var d, d' := DateOf(day), DateOf(day');
    PrefixFields(tenant, day);
    PrefixFields(tenant', day');
    assert Pow10(2) == 100 && Pow10(4) == 10000;
    PadInjective(d.year, d'.year, 4);
    PadInjective(d.month, d'.month, 2);
    PadInjective(d.day, d'.day, 2);
    DateIdentifiesDay(day, day');
  }

  /** A tenant/day prefix matches a key exactly when tenant and UTC day match. */
  lemma PrefixMatchesExactly(e: AuditEvent, tenant: string, day: nat)
    requires ValidEvent(e) && IsUuid(tenant) && DateOf(day).year <= 9999
    ensures DayPrefix(tenant, day) <= S3Key(e) <==> e.tenant == tenant && DayOf(e.createdAt) == day
  {
    PrefixFields(tenant, day);
    PrefixFields(e.tenant, DayOf(e.createdAt));
    assert S3Key(e)[..73] == DayPrefix(e.tenant, DayOf(e.createdAt));
    if DayPrefix(tenant, day) <= S3Key(e) {
      PrefixInjective(tenant, day, e.tenant, DayOf(e.createdAt));
    }
  }

  // ---------------------------------------------------------------- the two listings

  /** The ids the SQL window selects. */
  function Directory(key: string): string {
    if |Basename(key)| <= |key| then key[..|key| - |Basename(key)|] else ""
  }

  lemma KeyDirectory(e: AuditEvent)
    requires ValidEvent(e)
    ensures Directory(S3Key(e)) == DayPrefix(e.tenant, DayOf(e.createdAt)) + "hour=" + Pad(HourOf(e.createdAt), 2) + "/"
  {
    var dir, base := DayPrefix(e.tenant, DayOf(e.createdAt)) + "hour=" + Pad(HourOf(e.createdAt), 2), e.id + SUFFIX;
    UuidHasNoSlash(e.id);
    assert S3Key(e) == dir + "/" + base;
    BasenameAfterSlash(dir, base);
    hide Basename, DayPrefix, Pad, IsUuid;
    assert (dir + "/" + base)[..|dir| + 1] == dir + "/";
  }

  /** Two events share an archive directory exactly when they share tenant, UTC day and hour of the day. */
  lemma DirectoryIffSameHour(e: AuditEvent, e': AuditEvent)
    requires ValidEvent(e) && ValidEvent(e')
    ensures Directory(S3Key(e)) == Directory(S3Key(e'))
            <==> e.tenant == e'.tenant && e.createdAt / HOUR == e'.createdAt / HOUR
  {
    KeyDirectory(e);
    KeyDirectory(e');
    HourIsDayAndHour(e.createdAt, e'.createdAt);
    var (p, p') := (DayPrefix(e.tenant, DayOf(e.createdAt)), DayPrefix(e'.tenant, DayOf(e'.createdAt)));
    var (h, h') := (Pad(HourOf(e.createdAt), 2), Pad(HourOf(e'.createdAt), 2));
    PrefixFields(e.tenant, DayOf(e.createdAt));
    PrefixFields(e'.tenant, DayOf(e'.createdAt));
    if Directory(S3Key(e)) == Directory(S3Key(e')) {
      SameFields(p, p', h, h');
      PrefixInjective(e.tenant, DayOf(e.createdAt), e'.tenant, DayOf(e'.createdAt));
      assert Pow10(2) == 100 by { assert Pow10(1) == 10; }
      PadInjective(HourOf(e.createdAt), HourOf(e'.createdAt), 2);
    }
  }

  lemma SameFields(p: string, p': string, h: string, h': string)
    requires |p| == |p'| && |h| == |h'| && p + "hour=" + h + "/" == p' + "hour=" + h' + "/"
    ensures p == p' && h == h'
  {
    var s, s' := p + "hour=" + h + "/", p' + "hour=" + h' + "/";
    assert p == s[..|p|] && p' == s'[..|p|];
    assert h == s[|p| + 5..|p| + 5 + |h|] && h' == s'[|p| + 5..|p| + 5 + |h|];
  }

  lemma HourIsDayAndHour(t: nat, t': nat)
    ensures t / HOUR == t' / HOUR <==> DayOf(t) == DayOf(t') && HourOf(t) == HourOf(t')
  {
    assert t / HOUR == 24 * DayOf(t) + HourOf(t) && HourOf(t) < 24;
    assert t' / HOUR == 24 * DayOf(t') + HourOf(t') && HourOf(t') < 24;
  }

  function ListPg(rows: set<AuditEvent>, tenant: string, day: nat): set<string> {
    set e | e in rows && e.tenant == tenant && DayWindow(day).0 <= e.createdAt < DayWindow(day).1 :: e.id
  }

  function Keys(rows: set<AuditEvent>): set<string> {
    set e | e in rows :: S3Key(e)
  }

  /** The ids a prefix listing of the bucket decodes to; keys of another shape are skipped. */
  function ListS3(keys: set<string>, tenant: string, day: nat): set<string> {
    set key | key in keys && DayPrefix(tenant, day) <= key && EventIdFromKey(key).Some? :: EventIdFromKey(key).value
  }

  /** When the archive holds exactly the events' objects, both listings give the same ids. */
  lemma ListingsAgree(rows: set<AuditEvent>, tenant: string, day: nat)
    requires IsUuid(tenant) && DateOf(day).year <= 9999
    requires forall e | e in rows :: ValidEvent(e)
    ensures ListS3(Keys(rows), tenant, day) == ListPg(rows, tenant, day)
  {
    forall e | e in rows
      ensures S3Key(e) in Keys(rows) && EventIdFromKey(S3Key(e)) == Some(e.id)
      ensures DayPrefix(tenant, day) <= S3Key(e)
              <==> e.tenant == tenant && DayWindow(day).0 <= e.createdAt < DayWindow(day).1
    {
      KeyRoundTrip(e);
      PrefixMatchesExactly(e, tenant, day);
      InWindowIffSameDay(e.createdAt, day);
    }
  }
}
