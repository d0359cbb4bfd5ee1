/**
 The local file server: byte ranges (the single-range syntax of section 14.1.2 of RFC 9110), the bodies
 they select, and the registry behind the URLs it hands out.
 */
module Serve {
  import opened Wrappers
  import opened Json

  // ── Numerals ─────────────────────────────────────────────────

  const DIGITS := "0123456789abcdef"

  lemma DivisionRestores(n: nat, base: nat)
    requires 2 <= base
    ensures (n / base) * base + n % base == n
    ensures n > 0 ==> n / base < n
  {
    var q := n / base;
    assert q * base == q * 2 + q * (base - 2);
  }

  /** Positional notation, most significant digit first: `to_string` is base 10, `{:x}` base 16. */
  function Numeral(n: nat, base: nat): (r: string)
    requires 2 <= base <= 16
    ensures |r| > 0
    decreases n
  {
    DivisionRestores(n, base);
    if n < base then [DIGITS[n]] else Numeral(n / base, base) + [DIGITS[n % base]]
  }

  function DigitOf(c: char, base: nat): Option<nat>
    requires 2 <= base <= 16
  {
    var v := if '0' <= c <= '9' then c as int - '0' as int
             else if 'a' <= c <= 'f' then c as int - 'a' as int + 10
             else 16;
    if v < base then Some(v) else None
  }

  function ValueOf(s: string, base: nat): Option<nat>
    requires 2 <= base <= 16
  {
    if s == [] then Some(0) else
    match (ValueOf(s[..|s| - 1], base), DigitOf(s[|s| - 1], base))
    case (Some(v), Some(d)) => Some(v * base + d)
    case _ => None
  }

  /** `str::parse::<u64>`: an optional plus sign, then at least one digit, without overflow. */
  function ParseU64(s: string): Option<u64> {
    var digits := if s != [] && s[0] == '+' then s[1..] else s;
    if digits == [] then None else
    match ValueOf(digits, 10)
    case Some(v) => if v < 0x1_0000_0000_0000_0000 then Some(v) else None
    case None => None
  }

  lemma DigitRoundTrip(d: nat, base: nat)
    requires 2 <= base <= 16 && d < base
    ensures DigitOf(DIGITS[d], base) == Some(d) && DIGITS[d] != '-' && DIGITS[d] != '+'
  {
  }

  /** Numerals are read back as the number they print. */
  lemma {:induction false} NumeralRoundTrip(n: nat, base: nat)
    requires 2 <= base <= 16
    ensures ValueOf(Numeral(n, base), base) == Some(n)
    decreases n
  {
    DivisionRestores(n, base);
    if n < base {
      ValueOfLast([], n, base, 0);
      assert [] + [DIGITS[n]] == [DIGITS[n]];
    } else {
      NumeralRoundTrip(n / base, base);
      ValueOfLast(Numeral(n / base, base), n % base, base, n / base);
    }
  }

  lemma ValueOfLast(s: string, d: nat, base: nat, v: nat)
    requires 2 <= base <= 16 && d < base && ValueOf(s, base) == Some(v)
    ensures ValueOf(s + [DIGITS[d]], base) == Some(v * base + d)
  {
    var t := s + [DIGITS[d]];
    assert t[..|t| - 1] == s && t[|t| - 1] == DIGITS[d];
    DigitRoundTrip(d, base);
  }

  predicate Unsigned(s: string) {
    '-' !in s && '+' !in s
  }

  /** Numerals hold neither sign. */
  lemma {:induction false} NumeralIsUnsigned(n: nat, base: nat)
    requires 2 <= base <= 16
    ensures Unsigned(Numeral(n, base))
    decreases n
  {
    DigitRoundTrip(n % base, base);
    DivisionRestores(n, base);
    if n >= base {
      NumeralIsUnsigned(n / base, base);
    }
  }

  lemma DecimalParses(n: u64)
    ensures ParseU64(Numeral(n, 10)) == Some(n)
  {
    NumeralRoundTrip(n, 10);
    NumeralIsUnsigned(n, 10);
  }

  // ── parse_range ──────────────────────────────────────────────

  /** Index of the first dash, or the length. */
  function FirstDash(s: string): (i: nat)
    ensures i <= |s| && '-' !in s[..i] && (i < |s| ==> s[i] == '-')
  {
    if s == [] || s[0] == '-' then 0 else 1 + FirstDash(s[1..])
  }

  const UNIT := "bytes="

  function ParseRange(header: string, fileSize: u64): Option<(nat, nat)> {
    if fileSize == 0 || !(UNIT <= header) then None else
    var s := header[|UNIT|..];
    var dash := FirstDash(s);
    if dash == |s| then None else
    var first, second := s[..dash], s[dash + 1..];
    if first == [] then
      match ParseU64(second)
      case None => None
      case Some(suffix) =>
        var start := if suffix <= fileSize then fileSize - suffix else 0;
        if start <= fileSize - 1 then Some((start, fileSize - 1)) else None
    else
      match (ParseU64(first), if second == [] then Some(fileSize - 1) else ParseU64(second))
      case (Some(start), Some(end)) => if start <= end < fileSize then Some((start, end)) else None
      case _ => None
  }

  function RangeHeader(start: nat, end: nat): string { UNIT + Numeral(start, 10) + "-" + Numeral(end, 10) }

  /** Every accepted range lies inside the file, so its length cannot underflow. */
  lemma AcceptedRangesAreInside(header: string, fileSize: u64)
    ensures
      match ParseRange(header, fileSize)
      case Some((start, end)) => start <= end < fileSize && 1 <= end - start + 1 <= fileSize
      case None => true
  {
  }

  lemma {:induction false} DashSplits(head: string, tail: string)
    requires '-' !in head
    ensures FirstDash(head + "-" + tail) == |head|
  {
    if head != [] {
      assert (head + "-" + tail)[1..] == head[1..] + "-" + tail;
      DashSplits(head[1..], tail);
    }
  }

  lemma HeaderSplits(first: string, second: string)
    requires '-' !in first
    ensures
      var header := UNIT + first + "-" + second;
      var s := header[|UNIT|..];
      && UNIT <= header && FirstDash(s) == |first| < |s|
      && s[..|first|] == first && s[|first| + 1..] == second
  {
    var header := UNIT + first + "-" + second;
    assert header[|UNIT|..] == first + "-" + second;
    DashSplits(first, second);
  }

  /** Printing a pair and parsing it gives the pair back exactly when it is a range of the file; an end
      beyond the file is rejected, not clamped. */
  lemma RangeRoundTrip(start: u64, end: u64, fileSize: u64)
    ensures
      ParseRange(RangeHeader(start, end), fileSize) == if start <= end < fileSize then Some((start, end)) else None
  {
    NumeralIsUnsigned(start, 10);
    HeaderSplits(Numeral(start, 10), Numeral(end, 10));
    DecimalParses(start);
    DecimalParses(end);
  }

  /** `bytes=-n` selects the true tail. */
  lemma SuffixSelectsTail(n: u64, fileSize: u64)
    ensures
      ParseRange(UNIT + "" + "-" + Numeral(n, 10), fileSize)
      == if n == 0 || fileSize == 0 then None
         else Some((if n <= fileSize then fileSize - n else 0, fileSize - 1))
  {
    HeaderSplits("", Numeral(n, 10));
    DecimalParses(n);
  }

  /** `bytes=n-` selects everything from `n` on. */
  lemma OpenRangeSelectsRest(start: u64, fileSize: u64)
    ensures
      ParseRange(UNIT + Numeral(start, 10) + "-" + "", fileSize)
      == if start < fileSize then Some((start, fileSize - 1)) else None
  {
    NumeralIsUnsigned(start, 10);
    HeaderSplits(Numeral(start, 10), "");
    DecimalParses(start);
  }

  /** A numeral has a value exactly if all its characters are digits. */
  lemma {:induction false} OnlyDigitsHaveValue(s: string, base: nat)
    requires 2 <= base <= 16
    ensures ValueOf(s, base).Some? <==> forall i :: 0 <= i < |s| ==> DigitOf(s[i], base).Some?
  {
    if s != [] {
      var before := s[..|s| - 1];
      OnlyDigitsHaveValue(before, base);
      assert forall i :: 0 <= i < |before| ==> before[i] == s[i];
    }
  }

  lemma {:induction false} SplitsAtDash(s: string, i: nat)
    requires i < |s| && s[i] == '-'
    ensures s == s[..i] + "-" + s[i + 1..]
  {
    assert [s[i]] == "-";
    assert s == s[..i] + [s[i]] + s[i + 1..];
  }

  function Least(m: nat, n: nat): nat { if m < n then m else n }

  /** The range that the two sides of the dash spell. */
  predicate Spells(first: string, second: string, fileSize: u64, start: nat, end: nat) {
    if first == ""
    then ParseU64(second).Some? && end == fileSize - 1 && fileSize - start == Least(ParseU64(second).value, fileSize)
    else && ParseU64(first) == Some(start)
         && if second == "" then end == fileSize - 1 else ParseU64(second) == Some(end)
  }

  /** Every accepted header is `bytes=`, a first position or none, a dash, and a last position, a suffix length or
      nothing, and the range is the one it spells. */
  lemma AcceptedHeadersSpellTheirRange(header: string, fileSize: u64) returns (first: string, second: string)
    requires ParseRange(header, fileSize).Some?
    ensures header == UNIT + (first + "-" + second) && '-' !in first
    ensures Spells(first, second, fileSize, ParseRange(header, fileSize).value.0, ParseRange(header, fileSize).value.1)
  {
    var s := header[|UNIT|..];
    SplitsAtDash(s, FirstDash(s));
    first, second := s[..FirstDash(s)], s[FirstDash(s) + 1..];
    assert header == UNIT + s;
  }

  // ── The handler's body ───────────────────────────────────────

  type Bytes = seq<nat>

  /** A missing header, one that is not visible ASCII, or its text. */
  datatype HeaderValue = Absent | Unreadable | Text(s: string)

  datatype Response =
    | Full(body: Bytes)
    | Partial(start: nat, end: nat, contentLength: nat, body: Bytes)
    | NotSatisfiable

  /** `seek(start)`, then `take(len)`. */
  function SeekTake(file: Bytes, start: nat, len: nat): Bytes {
    var rest := if start <= |file| then file[start..] else [];
    if len <= |rest| then rest[..len] else rest
  }

  function Respond(file: Bytes, header: HeaderValue): Response
    requires |file| < 0x1_0000_0000_0000_0000
  {
    match header
    case Absent => Full(file)
    case Unreadable => NotSatisfiable
    case Text(s) =>
      match ParseRange(s, |file|)
      case None => NotSatisfiable
      case Some((start, end)) =>
        AcceptedRangesAreInside(s, |file|);
        Partial(start, end, end - start + 1, SeekTake(file, start, end - start + 1))
  }

  /** A partial response holds exactly the bytes it announces. */
  lemma PartialBodyIsExact(file: Bytes, header: HeaderValue)
    requires |file| < 0x1_0000_0000_0000_0000 && Respond(file, header).Partial?
    ensures
      var r := Respond(file, header);
      r.start <= r.end < |file| && r.body == file[r.start..r.end + 1] && |r.body| == r.contentLength
  {
    AcceptedRangesAreInside(header.s, |file|);
  }

  /** The whole file is served exactly to a request without a Range header, and a request is refused exactly if its
      header is unreadable or spells no range of the file. */
  lemma ResponsesAreExact(file: Bytes, header: HeaderValue)
    requires |file| < 0x1_0000_0000_0000_0000
    ensures Respond(file, header) == Full(file) <==> header.Absent?
    ensures Respond(file, header).Full? ==> Respond(file, header).body == file
    ensures
      Respond(file, header).NotSatisfiable?
      <==> header.Unreadable? || (header.Text? && ParseRange(header.s, |file|).None?)
  {
  }

  /** The body served for bytes `from` up to but excluding `to`. */
  function BodyFor(file: Bytes, from: nat, to: nat): Bytes
    requires |file| < 0x1_0000_0000_0000_0000 && from < to
  {
    match Respond(file, Text(RangeHeader(from, to - 1))) case Partial(_, _, _, body) => body case _ => []
  }

  /** Strictly increasing cut points up to the end of the file. */
  predicate Cuts(cuts: seq<nat>, from: nat, size: nat) {
    if cuts == [] then from == size else from < cuts[0] <= size && Cuts(cuts[1..], cuts[0], size)
  }

  function Bodies(file: Bytes, from: nat, cuts: seq<nat>): Bytes
    requires |file| < 0x1_0000_0000_0000_0000 && Cuts(cuts, from, |file|)
    decreases |cuts|
  {
    if cuts == [] then [] else BodyFor(file, from, cuts[0]) + Bodies(file, cuts[0], cuts[1..])
  }

  /** Whatever the header's text, an accepted range is answered with its slice. */
  lemma AcceptedRangeIsServed(file: Bytes, header: string, start: nat, end: nat)
    requires |file| < 0x1_0000_0000_0000_0000 && start <= end < |file|
    requires ParseRange(header, |file|) == Some((start, end))
    ensures Respond(file, Text(header)) == Partial(start, end, end - start + 1, file[start..end + 1])
  {
    PartialBodyIsExact(file, Text(header));
  }

  lemma BodyIsSlice(file: Bytes, from: nat, to: nat)
    requires |file| < 0x1_0000_0000_0000_0000 && from < to <= |file|
    ensures BodyFor(file, from, to) == file[from..to]
  {
    var last: nat := to - 1;
    RangeRoundTrip(from, last, |file|);
    AcceptedRangeIsServed(file, RangeHeader(from, last), from, last);
  }

  function Slices(file: Bytes, from: nat, cuts: seq<nat>): Bytes
    requires Cuts(cuts, from, |file|)
    decreases |cuts|
  {
    if cuts == [] then [] else file[from..cuts[0]] + Slices(file, cuts[0], cuts[1..])
  }

  lemma {:induction false} SlicesConcatenate(file: Bytes, from: nat, cuts: seq<nat>)
    requires Cuts(cuts, from, |file|)
    ensures from <= |file| && Slices(file, from, cuts) == file[from..]
    decreases |cuts|
  {
    if cuts != [] {
      SlicesConcatenate(file, cuts[0], cuts[1..]);
      assert file[from..cuts[0]] + file[cuts[0]..] == file[from..];
    }
  }

  lemma {:induction false} BodiesAreSlices(file: Bytes, from: nat, cuts: seq<nat>)
    requires |file| < 0x1_0000_0000_0000_0000 && Cuts(cuts, from, |file|)
    ensures Bodies(file, from, cuts) == Slices(file, from, cuts)
    decreases |cuts|
  {
    if cuts != [] {
      BodyIsSlice(file, from, cuts[0]);
      BodiesAreSlices(file, cuts[0], cuts[1..]);
    }
  }

  /** The bodies of the ranges of any partition of the file concatenate to the file. */
  lemma PartitionsConcatenate(file: Bytes, cuts: seq<nat>)
    requires |file| < 0x1_0000_0000_0000_0000 && Cuts(cuts, 0, |file|)
    ensures Bodies(file, 0, cuts) == file
  {
    BodiesAreSlices(file, 0, cuts);
    SlicesConcatenate(file, 0, cuts);
  }

  // ── The registry ─────────────────────────────────────────────

  const U64 := 0x1_0000_0000_0000_0000

  datatype FileEntry = FileEntry(path: string, contentType: string)

  datatype Registration = Registration(server: nat, entry: FileEntry)

  /** The process-wide counter, and every server's file map. */
  datatype Registry = Registry(counter: nat, servers: map<nat, map<string, FileEntry>>)

  function Id(counter: nat): string { Numeral(counter % U64, 16) }

  lemma SmallIds(n: nat)
    requires n < U64
    ensures Id(n) == Numeral(n, 16)
  {
    SmallCounters(n);
  }

  lemma SmallCounters(n: nat)
    requires n < U64
    ensures n % U64 == n
  {
  }

  function FilesOf(r: Registry, server: nat): map<string, FileEntry> {
    if server in r.servers then r.servers[server] else map[]
  }

  /** One registration, under the id that `idOf` prints for the counter. */
  function Register(idOf: nat -> string, r: Registry, g: Registration): Registry {
    Registry(r.counter + 1, r.servers[g.server := FilesOf(r, g.server)[idOf(r.counter) := g.entry]])
  }

  function RegisterAll(idOf: nat -> string, r: Registry, gs: seq<Registration>): Registry
    decreases |gs|
  {
    if gs == [] then r else Register(idOf, RegisterAll(idOf, r, gs[..|gs| - 1]), gs[|gs| - 1])
  }

  /** Two counter values print the same id exactly when they are a multiple of 2^64 apart. */
  lemma IdsCollideExactly(i: nat, j: nat)
    ensures Id(i) == Id(j) <==> (i - j) % U64 == 0
  {
    NumeralsAreInjective(i % U64, j % U64, 16);
    SameResidue(i, j);
  }

  lemma NumeralsAreInjective(m: nat, n: nat, base: nat)
    requires 2 <= base <= 16
    ensures Numeral(m, base) == Numeral(n, base) <==> m == n
  {
    NumeralRoundTrip(m, base);
    NumeralRoundTrip(n, base);
  }

  lemma SameResidue(i: nat, j: nat)
    ensures i % U64 == j % U64 <==> (i - j) % U64 == 0
  {
  }

  lemma {:induction false} CounterCounts(idOf: nat -> string, r: Registry, gs: seq<Registration>)
    ensures RegisterAll(idOf, r, gs).counter == r.counter + |gs|
    decreases |gs|
  {
    if gs != [] {
      CounterCounts(idOf, r, gs[..|gs| - 1]);
    }
  }

  /** No two of the `n` counter values from `start` on print the same id. */
  ghost predicate Collisionless(idOf: nat -> string, start: nat, n: nat) {
    forall i, j :: start <= i < j < start + n ==> idOf(i) != idOf(j)
  }

  /** Without collisions every id keeps naming the entry it was issued for. */
  lemma {:induction false} EntriesStay(idOf: nat -> string, r: Registry, gs: seq<Registration>, i: nat)
    requires i < |gs| && Collisionless(idOf, r.counter, |gs|)
    ensures
      var files := FilesOf(RegisterAll(idOf, r, gs), gs[i].server);
      idOf(r.counter + i) in files && files[idOf(r.counter + i)] == gs[i].entry
    decreases |gs|
  {
    var before := gs[..|gs| - 1];
    CounterCounts(idOf, r, before);
    if i < |before| {
      EntriesStay(idOf, r, before, i);
      assert idOf(r.counter + i) != idOf(r.counter + |before|);
    }
  }

  lemma IdsAreCollisionless(start: nat, n: nat)
    requires n <= U64
    ensures Collisionless(Id, start, n)
  {
    forall j, k | start <= j < k < start + n
      ensures Id(j) != Id(k)
    {
      IdsCollideExactly(j, k);
    }
  }

  /** Over any servers and at most 2^64 registrations, every id keeps naming the entry it was issued for. */
  lemma UrlsAreStable(r: Registry, gs: seq<Registration>, i: nat)
    requires i < |gs| <= U64
    ensures
      var files := FilesOf(RegisterAll(Id, r, gs), gs[i].server);
      Id(r.counter + i) in files && files[Id(r.counter + i)] == gs[i].entry
  {
    IdsAreCollisionless(r.counter, |gs|);
    EntriesStay(Id, r, gs, i);
  }

  /** `FileServer`, with the static counter as a separate object. */
  class Counter {
    var next: nat

    constructor ()
      ensures next == 0
    {
      next := 0;
    }

    /** `fetch_add(1)` on an `AtomicU64`. */
    method FetchAdd() returns (previous: nat)
      modifies this
      ensures previous == old(next) && next == (old(next) + 1) % U64
    {
      previous := next;
      next := (next + 1) % U64;
    }
  }

  class FileServer {
    const address: string
    var files: map<string, FileEntry>

    constructor (address: string)
      ensures this.address == address && files == map[]
    {
      this.address, files := address, map[];
    }

    /** Register a file; `present` is what the file system says. */
    method ServeFile(counter: Counter, entry: FileEntry, present: bool) returns (url: Result<string, string>)
      requires counter.next < U64
      modifies this`files, counter
      ensures !present ==> url == Err(entry.path) && files == old(files) && counter.next == old(counter.next)
      ensures present ==>
                && url == Ok("http://" + address + "/file/" + Id(old(counter.next)))
                && files == old(files)[Id(old(counter.next)) := entry]
                && counter.next == (old(counter.next) + 1) % U64
    {
      if !present {
        return Err(entry.path);
      }
      var n := counter.FetchAdd();
      SmallIds(n);
      var id := Numeral(n, 16);
      files := files[id := entry];
      url := Ok("http://" + address + "/file/" + id);
    }
  }
}
