/**
 * The DNS name logic: which zone serves a registered domain name, which
 * record of that zone stands for it, which registrable extension a domain
 * ends in, the host names a zone serves, the rule that a stored name is
 * never renamed, and the collection of a name's zone or record before the
 * name is deleted.
 *
 * The database is a sequence of zones, each with its records, in the
 * order the database returns them.
 */
module Dns {

  import opened Common
  import opened Text

  datatype Record = Record(name: string, rtype: string, data: string)

  datatype Zone = Zone(origin: string, records: seq<Record>)

  /** A registered domain: `name` under the extension `extension` ("example" under "com"). */
  datatype Name = Name(name: string, extension: string, provider: string)

  datatype DnsError =
    | NoZone                   // `get_zone` gave None, so `zone.origin` fails
    | RecordDoesNotExist       // `Record.objects.get` found no record
    | MultipleRecordsReturned  // `Record.objects.get` found more than one

  /** "name.extension". */
  function FullName(n: Name): string
  {
    n.name + "." + n.extension
  }

  /** Where the name, the joining dot and the extension sit in the full name. */
  lemma FullNameParts(n: Name)
    ensures |FullName(n)| == |n.name| + 1 + |n.extension|
    ensures FullName(n)[|n.name|] == '.'
  {
  }

  // ---------------------------------------------------------------- get_zone

  /** `Zone.objects.filter(origin=origin, record__name=record)` holds `z`. */
  predicate Serves(z: Zone, origin: string, record: string)
  {
    z.origin == origin && exists r :: r in z.records && r.name == record
  }

  /** The first zone of the database with this origin and a record of this name. */
  function Lookup(db: seq<Zone>, origin: string, record: string): (found: Option<Zone>)
  {
    if db == [] then None
    else if Serves(db[0], origin, record) then Some(db[0])
    else Lookup(db[1..], origin, record)
  }

  /** The lookup finds nothing exactly when no zone serves; otherwise it finds the first that does. */
  lemma {:induction false} LookupFirst(db: seq<Zone>, origin: string, record: string)
    ensures var found := Lookup(db, origin, record);
      && (found.None? <==> forall i :: 0 <= i < |db| ==> !Serves(db[i], origin, record))
      && (found.Some? ==>
            exists i :: 0 <= i < |db| && db[i] == found.value && Serves(db[i], origin, record)
              && forall j :: 0 <= j < i ==> !Serves(db[j], origin, record))
  {
    if db != [] && !Serves(db[0], origin, record) {
      LookupFirst(db[1..], origin, record);
      assert forall i :: 1 <= i < |db| ==> db[i] == db[1..][i - 1];
      if Lookup(db, origin, record).Some? {
        var i :| 0 <= i < |db[1..]| && db[1..][i] == Lookup(db, origin, record).value
                 && Serves(db[1..][i], origin, record)
                 && forall j :: 0 <= j < i ==> !Serves(db[1..][j], origin, record);
        assert db[i + 1] == Lookup(db, origin, record).value;
      }
    }
  }

  /** `rindex('.')` of "name.extension": the position of its last dot. */
  function LastDot(n: Name): (p: nat)
    ensures p < |FullName(n)| && FullName(n)[p] == '.'
    ensures forall j :: p < j < |FullName(n)| ==> FullName(n)[j] != '.'
  {
    FullNameParts(n);
    RIndex(FullName(n), '.', |FullName(n)|).value
  }

  /**
   * The search `get_zone` performs from `position` down: each dot below
   * `position`, from right to left, splits the name into a record and an
   * origin; when no dot is left, the whole name is the origin and the
   * record is "".
   */
  function ZoneSearchFrom(db: seq<Zone>, full: string, position: nat): Option<Zone>
    requires position <= |full|
    decreases position
  {
    match RIndex(full, '.', position)
    case None => Lookup(db, full, "")
    case Some(p) =>
      var found := Lookup(db, full[p + 1..], full[..p]);
      if found.Some? then found else ZoneSearchFrom(db, full, p)
  }

  /** What `get_zone` returns: the search starts below the last dot, so origins have two labels or more. */
  function ZoneSearch(db: seq<Zone>, n: Name): Option<Zone>
  {
    ZoneSearchFrom(db, FullName(n), LastDot(n))
  }

  /** The split at dot `p`: record `full[..p]`, origin `full[p + 1..]`. */
  function SplitAt(db: seq<Zone>, full: string, p: nat): Option<Zone>
    requires p < |full|
  {
    Lookup(db, full[p + 1..], full[..p])
  }

  /** No split at a dot in `lo..hi` finds a zone. */
  ghost predicate MissesBetween(db: seq<Zone>, full: string, lo: nat, hi: nat)
    requires hi <= |full|
  {
    forall q :: lo <= q < hi && full[q] == '.' ==> SplitAt(db, full, q).None?
  }

  /**
   * The search gives None exactly when no split below `position` and not
   * the whole name finds a zone; otherwise it gives the zone of the
   * rightmost split that finds one, or, when none does, the zone found for
   * the whole name with record "".
   */
  ghost predicate SearchFinds(db: seq<Zone>, full: string, position: nat)
    requires position <= |full|
  {
    var r := ZoneSearchFrom(db, full, position);
    && (r.None? <==> MissesBetween(db, full, 0, position) && Lookup(db, full, "").None?)
    && (r.Some? ==>
          (exists p :: 0 <= p < position && full[p] == '.' && r == SplitAt(db, full, p)
                       && MissesBetween(db, full, p + 1, position))
          || (r == Lookup(db, full, "") && MissesBetween(db, full, 0, position)))
  }

  lemma {:induction false} ZoneSearchFromSpec(db: seq<Zone>, full: string, position: nat)
    requires position <= |full|
    ensures SearchFinds(db, full, position)
    decreases position
  {
    var r := ZoneSearchFrom(db, full, position);
    match RIndex(full, '.', position)
    case None =>
      assert MissesBetween(db, full, 0, position);
    case Some(p) =>
      assert MissesBetween(db, full, p + 1, position);
      if SplitAt(db, full, p).None? {
        ZoneSearchFromSpec(db, full, p);
        SearchSkips(db, full, p, position);
      } else {
        assert r == SplitAt(db, full, p);
      }
  }

  /** A dot whose split misses passes the search on to the dots below it. */
  lemma SearchSkips(db: seq<Zone>, full: string, p: nat, position: nat)
    requires p < position <= |full| && RIndex(full, '.', position) == Some(p)
    requires SplitAt(db, full, p).None? && SearchFinds(db, full, p)
    ensures SearchFinds(db, full, position)
  {
    var r := ZoneSearchFrom(db, full, position);
    SearchPassesOn(db, full, p, position);
    assert MissesBetween(db, full, p + 1, position);
    MissesJoin(db, full, 0, p, position);
    assert r.None? <==> MissesBetween(db, full, 0, position) && Lookup(db, full, "").None?;
    if r.Some? && !(r == Lookup(db, full, "") && MissesBetween(db, full, 0, p)) {
      var p': nat :| p' < p && full[p'] == '.' && r == SplitAt(db, full, p')
                     && MissesBetween(db, full, p' + 1, p);
      MissesJoin(db, full, p' + 1, p, position);
    }
  }

  lemma SearchPassesOn(db: seq<Zone>, full: string, p: nat, position: nat)
    requires p < position <= |full| && RIndex(full, '.', position) == Some(p)
    requires SplitAt(db, full, p).None?
    ensures ZoneSearchFrom(db, full, position) == ZoneSearchFrom(db, full, p)
  {
  }

  /** Misses on both sides of a dot that misses join up. */
  lemma MissesJoin(db: seq<Zone>, full: string, lo: nat, p: nat, hi: nat)
    requires lo <= p < hi <= |full| && full[p] == '.' && SplitAt(db, full, p).None?
    requires MissesBetween(db, full, p + 1, hi)
    ensures MissesBetween(db, full, lo, hi) <==> MissesBetween(db, full, lo, p)
  {
  }

  /** Each split is a real one: record, a dot and origin spell the full name. */
  lemma SplitSpells(full: string, p: nat)
    requires p < |full| && full[p] == '.'
    ensures full[..p] + "." + full[p + 1..] == full
  {
    assert full == full[..p] + [full[p]] + full[p + 1..];
  }

  /** `Name.get_zone`: the loop over `rindex` positions, stopping at the first zone found. */
  method GetZone(db: seq<Zone>, n: Name) returns (zone: Option<Zone>)
    ensures zone == ZoneSearch(db, n)
  {
    var entairOrigin := n.name + "." + n.extension;
    var position: nat := LastDot(n);
    var stop := false;
    while !stop
      invariant position <= |entairOrigin|
      invariant !stop ==> ZoneSearchFrom(db, entairOrigin, position) == ZoneSearch(db, n)
      invariant stop ==> ZoneSearch(db, n).None?
      decreases position + (if stop then 0 else 1)
    {
      var origin, record;
      match RIndex(entairOrigin, '.', position) {
        case None =>
          origin := entairOrigin;
          record := "";
          stop := true;
        case Some(p) =>
          position := p;
          origin := entairOrigin[position + 1..];
          record := entairOrigin[..position];
      }
      var found := Lookup(db, origin, record);
      if found.Some? {
        return found;
      }
    }
    return None;
  }

  // -------------------------------------------------------------- get_record

  /** The records of `records` with this name, in order. */
  function Named(records: seq<Record>, name: string): (hits: seq<Record>)
    ensures |hits| <= |records|
    ensures forall r :: r in hits <==> r in records && r.name == name
  {
    if records == [] then []
    else (if records[0].name == name then [records[0]] else []) + Named(records[1..], name)
  }

  /** The record name `get_record` derives: one trailing "." + origin removed. */
  function RecordName(full: string, origin: string): (rn: string)
    ensures EndsWith(full, "." + origin) ==> rn + "." + origin == full
    ensures !EndsWith(full, "." + origin) ==> rn == full
  {
    RemoveSuffix(full, "." + origin)
  }

  /** `Name.get_record`: the unique record of the name's zone named after the name. */
  function GetRecord(db: seq<Zone>, n: Name): (r: Result<Record, DnsError>)
    ensures ZoneSearch(db, n).None? <==> r == Err(NoZone)
    ensures r.Ok? ==>
      var z := ZoneSearch(db, n).value;
      r.value in z.records && r.value.name == RecordName(FullName(n), z.origin)
      && Named(z.records, r.value.name) == [r.value]
    ensures r == Err(RecordDoesNotExist) ==>
      var z := ZoneSearch(db, n).value;
      forall rec :: rec in z.records ==> rec.name != RecordName(FullName(n), z.origin)
    ensures ZoneSearch(db, n).Some? ==>
      var z := ZoneSearch(db, n).value;
      var hits := Named(z.records, RecordName(FullName(n), z.origin));
      && (r.Ok? <==> |hits| == 1)
      && (r == Err(RecordDoesNotExist) <==> |hits| == 0)
      && (r == Err(MultipleRecordsReturned) <==> |hits| > 1)
  {
    match ZoneSearch(db, n)
    case None => Err(NoZone)
    case Some(z) =>
      var hits := Named(z.records, RecordName(FullName(n), z.origin));
      if |hits| == 0 then Err(RecordDoesNotExist)
      else if |hits| == 1 then Ok(hits[0])
      else Err(MultipleRecordsReturned)
  }

  /**
   * When the zone found is not the one for the whole name, it was found by
   * a split, so a record with the derived name exists: `get_record` can
   * then fail only with more than one record.
   */
  lemma SubzoneRecordExists(db: seq<Zone>, n: Name)
    requires ZoneSearch(db, n).Some? && ZoneSearch(db, n).value.origin != FullName(n)
    ensures GetRecord(db, n) != Err(RecordDoesNotExist)
    ensures GetRecord(db, n) != Err(NoZone)
  {
    var z := ZoneSearch(db, n).value;
    SearchRecordExists(db, FullName(n), LastDot(n), z);
  }

  /** A zone the search finds for another origin than the whole name has the derived record. */
  lemma SearchRecordExists(db: seq<Zone>, full: string, position: nat, z: Zone)
    requires position <= |full| && ZoneSearchFrom(db, full, position) == Some(z) && z.origin != full
    ensures Named(z.records, RecordName(full, z.origin)) != []
  {
    ZoneSearchFromSpec(db, full, position);
    LookupFirst(db, full, "");
    assert Lookup(db, full, "") != Some(z);
    var p :| 0 <= p < position && full[p] == '.' && Some(z) == SplitAt(db, full, p);
    SplitRecordFound(db, full, p, z);
  }

  /** A zone found by the split at dot `p` has a record named as `get_record` derives it. */
  lemma SplitRecordFound(db: seq<Zone>, full: string, p: nat, z: Zone)
    requires p < |full| && full[p] == '.' && SplitAt(db, full, p) == Some(z)
    ensures Named(z.records, RecordName(full, z.origin)) != []
  {
    SplitSpells(full, p);
    var origin := full[p + 1..];
    LookupFirst(db, origin, full[..p]);
    assert Serves(z, origin, full[..p]);
    RemoveAppendedSuffix(full[..p], "." + origin);
    assert RecordName(full, origin) == full[..p];
    var rec :| rec in z.records && rec.name == full[..p];
    assert rec in Named(z.records, full[..p]);
  }

  // ---------------------------------------------------- get_extension, split

  /** `s.count('.')`. */
  function Dots(s: string): nat
  {
    if s == [] then 0 else (if s[0] == '.' then 1 else 0) + Dots(s[1..])
  }

  /** `re.match(".*\." + ext + "$", domain)`: the domain ends in "." + ext. */
  predicate Matches(domain: string, ext: string)
  {
    EndsWith(domain, "." + ext)
  }

  /** Descending by dot count. */
  predicate SortedByDots(s: seq<string>)
  {
    forall i, j :: 0 <= i < j < |s| ==> Dots(s[i]) >= Dots(s[j])
  }

  /** Put `x` in front of the first element with no more dots than `x`. */
  function Insert(x: string, s: seq<string>): (r: seq<string>)
    requires SortedByDots(s)
    ensures SortedByDots(r)
    ensures forall y :: y in r <==> y == x || y in s
    ensures multiset(r) == multiset(s) + multiset{x}
  {
    if s == [] || Dots(s[0]) <= Dots(x) then [x] + s
    else
      var rest := Insert(x, s[1..]);
      assert multiset(s) == multiset{s[0]} + multiset(s[1..]) by {
        assert s == [s[0]] + s[1..];
      }
      TailBelowHead(s, rest, x);
      ConsSorted(s[0], rest);
      [s[0]] + rest
  }

  /** Every element of `rest`, which holds `x` and the tail of `s`, has no more dots than the head of `s`. */
  lemma TailBelowHead(s: seq<string>, rest: seq<string>, x: string)
    requires SortedByDots(s) && s != [] && Dots(x) < Dots(s[0])
    requires forall y :: y in rest ==> y == x || y in s[1..]
    ensures forall k :: 0 <= k < |rest| ==> Dots(rest[k]) <= Dots(s[0])
  {
    forall k | 0 <= k < |rest|
      ensures Dots(rest[k]) <= Dots(s[0])
    {
      assert rest[k] in rest;
      if rest[k] != x {
        var i :| 0 <= i < |s[1..]| && s[1..][i] == rest[k];
        assert s[i + 1] == rest[k];
      }
    }
  }

  /** A sorted list stays sorted behind a head with at least as many dots as any of its elements. */
  lemma ConsSorted(head: string, rest: seq<string>)
    requires SortedByDots(rest)
    requires forall k :: 0 <= k < |rest| ==> Dots(rest[k]) <= Dots(head)
    ensures SortedByDots([head] + rest)
  {
    var r := [head] + rest;
    HeadAbove(head, rest, r);
    TailStaysSorted(head, rest, r);
  }

  lemma HeadAbove(head: string, rest: seq<string>, r: seq<string>)
    requires r == [head] + rest
    requires forall k :: 0 <= k < |rest| ==> Dots(rest[k]) <= Dots(head)
    ensures forall j :: 0 < j < |r| ==> Dots(r[0]) >= Dots(r[j])
  {
    forall j | 0 < j < |r|
      ensures Dots(r[0]) >= Dots(r[j])
    {
      assert r[j] == rest[j - 1];
    }
  }

  lemma TailStaysSorted(head: string, rest: seq<string>, r: seq<string>)
    requires r == [head] + rest
    requires SortedByDots(rest)
    ensures forall i, j :: 0 < i < j < |r| ==> Dots(r[i]) >= Dots(r[j])
  {
    forall i, j | 0 < i < j < |r|
      ensures Dots(r[i]) >= Dots(r[j])
    {
      assert r[i] == rest[i - 1] && r[j] == rest[j - 1];
    }
  }

  /**
   * `sorted(EXTENSIONS, cmp=s_cmp)`: most dots first. Python's sort is
   * stable, so extensions with as many dots keep their order; inserting
   * each element in front of its equals, from the back, does the same.
   */
  function SortByDots(s: seq<string>): (r: seq<string>)
    ensures SortedByDots(r)
    ensures multiset(r) == multiset(s)
  {
    if s == [] then [] else
      assert s == [s[0]] + s[1..];
      Insert(s[0], SortByDots(s[1..]))
  }

  /** The first element of `s` the domain ends in. */
  function FirstMatch(s: seq<string>, domain: string): (r: Option<string>)
    ensures r.None? <==> forall i :: 0 <= i < |s| ==> !Matches(domain, s[i])
    ensures r.Some? ==> r.value in s && Matches(domain, r.value)
  {
    if s == [] then None
    else if Matches(domain, s[0]) then Some(s[0])
    else
      assert forall i :: 1 <= i < |s| ==> s[i] == s[1..][i - 1];
      FirstMatch(s[1..], domain)
  }

  /**
   * The reference definition: of the extensions the domain ends in, one
   * with the most dots, the earliest listed among those.
   */
  function BestMatch(exts: seq<string>, domain: string): (r: Option<string>)
    ensures r.None? <==> forall i :: 0 <= i < |exts| ==> !Matches(domain, exts[i])
    ensures r.Some? ==> Matches(domain, r.value) && r.value in exts
    ensures r.Some? ==>
      forall i :: 0 <= i < |exts| && Matches(domain, exts[i]) ==> Dots(exts[i]) <= Dots(r.value)
  {
    if exts == [] then None
    else
      var rest := BestMatch(exts[1..], domain);
      assert forall i :: 1 <= i < |exts| ==> exts[i] == exts[1..][i - 1];
      var x := exts[0];
      if !Matches(domain, x) || (rest.Some? && Dots(rest.value) > Dots(x)) then rest
      else Some(x)
  }

  /** Among the matches with the most dots, the best match is the one listed first. */
  lemma {:induction false} BestMatchEarliest(exts: seq<string>, domain: string)
    requires BestMatch(exts, domain).Some?
    ensures var best := BestMatch(exts, domain).value;
      exists k :: 0 <= k < |exts| && exts[k] == best
        && forall j :: 0 <= j < k && Matches(domain, exts[j]) ==> Dots(exts[j]) < Dots(best)
  {
    var best := BestMatch(exts, domain).value;
    var rest := BestMatch(exts[1..], domain);
    if best == exts[0] && Matches(domain, exts[0]) && (rest.None? || Dots(rest.value) <= Dots(exts[0])) {
      assert exts[0] == best;
    } else {
      BestMatchEarliest(exts[1..], domain);
      var k :| 0 <= k < |exts[1..]| && exts[1..][k] == rest.value
        && forall j :: 0 <= j < k && Matches(domain, exts[1..][j]) ==> Dots(exts[1..][j]) < Dots(rest.value);
      assert exts[k + 1] == best;
      forall j | 0 <= j < k + 1 && Matches(domain, exts[j])
        ensures Dots(exts[j]) < Dots(best)
      {
        if j > 0 {
          assert exts[j] == exts[1..][j - 1];
        }
      }
    }
  }

  /** Taking the first match of a sorted list with `x` inserted picks `x` unless a match with more dots exists. */
  lemma {:induction false} FirstMatchInsert(x: string, s: seq<string>, domain: string)
    requires SortedByDots(s)
    ensures var m := FirstMatch(s, domain);
      FirstMatch(Insert(x, s), domain) ==
        if !Matches(domain, x) then m
        else if m.Some? && Dots(m.value) > Dots(x) then m
        else Some(x)
  {
    if s != [] && Dots(s[0]) > Dots(x) {
      assert SortedByDots(s[1..]) by {
        forall i, j | 0 <= i < j < |s[1..]| ensures Dots(s[1..][i]) >= Dots(s[1..][j]) {
          assert s[1..][i] == s[i + 1] && s[1..][j] == s[j + 1];
        }
      }
      FirstMatchInsert(x, s[1..], domain);
      var r := Insert(x, s[1..]);
      assert Insert(x, s) == [s[0]] + r;
      assert ([s[0]] + r)[1..] == r;
      if !Matches(domain, s[0]) {
        assert FirstMatch(s, domain) == FirstMatch(s[1..], domain);
      }
    } else if s != [] {
      var m := FirstMatch(s, domain);
      if m.Some? {
        var i :| 0 <= i < |s| && s[i] == m.value;
        assert Dots(m.value) <= Dots(s[0]);
      }
    }
  }

  /**
   * `Name.get_extension`: the first extension, most dots first, that the
   * domain ends in. The source returns (does not raise) an AttributeError
   * when none matches; that value is `Err` here.
   */
  function GetExtension(exts: seq<string>, domain: string): (r: Result<string, string>)
    ensures r.Err? <==> forall i :: 0 <= i < |exts| ==> !Matches(domain, exts[i])
    ensures r.Ok? ==> r.value in exts && Matches(domain, r.value)
    ensures r.Err? ==> r.error == "extention not found"
  {
    SortedFirstMatchIsBest(exts, domain);
    match FirstMatch(SortByDots(exts), domain)
    case Some(ext) => Ok(ext)
    case None => Err("extention not found")
  }

  /** The sorted first match is the reference best match. */
  lemma {:induction false} SortedFirstMatchIsBest(exts: seq<string>, domain: string)
    ensures FirstMatch(SortByDots(exts), domain) == BestMatch(exts, domain)
  {
    if exts != [] {
      SortedFirstMatchIsBest(exts[1..], domain);
      FirstMatchInsert(exts[0], SortByDots(exts[1..]), domain);
    }
  }

  /**
   * `get_extension` gives an extension the domain ends in, with no
   * matching extension having more dots, the earliest listed among equals;
   * and the error exactly when the domain ends in no extension.
   */
  lemma GetExtensionBest(exts: seq<string>, domain: string)
    ensures GetExtension(exts, domain).Err? <==> forall i :: 0 <= i < |exts| ==> !Matches(domain, exts[i])
    ensures GetExtension(exts, domain).Ok? ==> GetExtension(exts, domain) == Ok(BestMatch(exts, domain).value)
  {
    SortedFirstMatchIsBest(exts, domain);
  }

  /**
   * `Name.split`: the name with "." + extension removed, and the extension.
   * Without an extension, `ext.replace` fails on the returned AttributeError.
   */
  function Split(exts: seq<string>, domain: string): (r: Result<(string, string), string>)
    ensures r.Ok? ==> r.value.0 + "." + r.value.1 == domain && r.value.1 in exts
    ensures r.Err? <==> forall i :: 0 <= i < |exts| ==> !Matches(domain, exts[i])
    ensures r.Ok? ==> GetExtension(exts, domain) == Ok(r.value.1)
  {
    GetExtensionBest(exts, domain);
    match GetExtension(exts, domain)
    case Err(_) => Err("'AttributeError' object has no attribute 'replace'")
    case Ok(ext) =>
      var name := RemoveSuffix(domain, "." + ext);
      assert name + ("." + ext) == domain;
      Ok((name, ext))
  }

  // --------------------------------------------------------------- get_names

  /** The records `get_names` keeps: CNAME or A records with a non-empty name. */
  predicate IsHost(r: Record)
  {
    (r.rtype == "CNAME" || r.rtype == "A") && r.name != ""
  }

  /** The host records, in record order. */
  function Hosts(records: seq<Record>): (hosts: seq<Record>)
    ensures forall r :: r in hosts <==> r in records && IsHost(r)
  {
    if records == [] then []
    else
      var last := records[|records| - 1];
      assert records == records[..|records| - 1] + [last];
      Hosts(records[..|records| - 1]) + if IsHost(last) then [last] else []
  }

  function Qualify(hosts: seq<Record>, origin: string): (names: seq<string>)
    ensures |names| == |hosts|
    ensures forall i :: 0 <= i < |hosts| ==> names[i] == hosts[i].name + "." + origin
  {
    seq(|hosts|, i requires 0 <= i < |hosts| => hosts[i].name + "." + origin)
  }

  /** `Zone.get_names`: the origin, then "record.origin" for each host record. */
  method GetNames(z: Zone) returns (names: seq<string>)
    ensures names == [z.origin] + Qualify(Hosts(z.records), z.origin)
  {
    names := [z.origin];
    for i := 0 to |z.records|
      invariant names == [z.origin] + Qualify(Hosts(z.records[..i]), z.origin)
    {
      var record := z.records[i];
      assert z.records[..i + 1] == z.records[..i] + [record];
      if IsHost(record) {
        names := names + [record.name + "." + z.origin];
      }
    }
    assert z.records[..|z.records|] == z.records;
  }

  /**
   * The names of a zone are its origin, then names that each end in
   * "." + origin and strip back to the name of a CNAME or A record of the
   * zone; every such record gives one.
   */
  lemma NamesStripToHosts(z: Zone, names: seq<string>)
    requires names == [z.origin] + Qualify(Hosts(z.records), z.origin)
    ensures names[0] == z.origin
    ensures forall i :: 1 <= i < |names| ==>
      EndsWith(names[i], "." + z.origin)
      && exists r :: r in z.records && IsHost(r) && r.name == RecordName(names[i], z.origin)
    ensures forall r :: r in z.records && IsHost(r) ==> r.name + "." + z.origin in names
  {
    var hosts := Hosts(z.records);
    forall i | 1 <= i < |names|
      ensures EndsWith(names[i], "." + z.origin)
      ensures exists r :: r in z.records && IsHost(r) && r.name == RecordName(names[i], z.origin)
    {
      var h := hosts[i - 1];
      assert names[i] == h.name + ("." + z.origin);
      RemoveAppendedSuffix(h.name, "." + z.origin);
      assert h in hosts;
    }
    forall r | r in z.records && IsHost(r)
      ensures r.name + "." + z.origin in names
    {
      var k :| 0 <= k < |hosts| && hosts[k] == r;
      assert names[k + 1] == r.name + "." + z.origin;
    }
  }

  // ---------------------------------------------------------------- Name.save

  datatype SaveError =
    | NameDoesNotExist  // `Name.objects.get(pk=...)` found no row
    | RenameForbidden   // "Change name or extension are not allowed"

  /** The `Name` table, by primary key. */
  class NameTable {
    var rows: map<nat, Name>

    constructor ()
      ensures rows == map[]
    {
      rows := map[];
    }

    /**
     * `Name.save`. A truthy primary key (present and not 0) must name a
     * stored row whose name and extension equal the new ones; otherwise
     * nothing is written. A missing key stores the row under `newKey`, the
     * key the database assigns; a key of 0 is written as given.
     */
    method Save(pk: Option<nat>, n: Name, newKey: nat) returns (r: Result<nat, SaveError>)
      requires newKey !in rows
      modifies this
      ensures pk.Some? && pk.value != 0 && pk.value !in old(rows) ==>
        r == Err(NameDoesNotExist) && rows == old(rows)
      ensures pk.Some? && pk.value != 0 && pk.value in old(rows) ==>
        var stored := old(rows)[pk.value];
        if stored.name != n.name || stored.extension != n.extension
        then r == Err(RenameForbidden) && rows == old(rows)
        else r == Ok(pk.value) && rows == old(rows)[pk.value := n]
      ensures pk == Some(0) ==> r == Ok(0) && rows == old(rows)[0 := n]
      ensures pk.None? ==> r == Ok(newKey) && rows == old(rows)[newKey := n]
      ensures forall k :: k in old(rows) && k in rows ==>
        (rows[k].name == old(rows)[k].name && rows[k].extension == old(rows)[k].extension)
        || (pk == Some(0) && k == 0)
    {
      if pk.Some? && pk.value != 0 {
        if pk.value !in rows {
          return Err(NameDoesNotExist);
        }
        var stored := rows[pk.value];
        if stored.name != n.name || stored.extension != n.extension {
          return Err(RenameForbidden);
        }
      }
      var key := if pk.Some? then pk.value else newKey;
      rows := rows[key := n];
      r := Ok(key);
    }
  }

  // ----------------------------------------------------------- collect_zones

  /** The keys of the related collection: the model classes. */
  datatype ModelKey = NameModel | RecordModel | OtherModel(modelName: string)

  datatype Collected = ZoneItem(zone: Zone) | RecordItem(record: Record)

  /** The list under `key`, or the empty list the receiver would create. */
  function ListAt(items: map<ModelKey, seq<Collected>>, key: ModelKey): seq<Collected>
  {
    if key in items then items[key] else []
  }

  /** The `related_collection` dictionary the deletion signal passes around. */
  class RelatedCollection {
    var items: map<ModelKey, seq<Collected>>

    constructor (items: map<ModelKey, seq<Collected>>)
      ensures this.items == items
    {
      this.items := items;
    }

    /**
     * `collect_zones`: the zone of a name whose origin is the whole name is
     * appended under `Name`; otherwise the name's record is appended under
     * `Record`, whose list is created first, so it stays even when
     * `get_record` fails. Other keys are untouched.
     */
    method CollectZones(db: seq<Zone>, n: Name) returns (error: Option<DnsError>)
      modifies this
      ensures ZoneSearch(db, n).None? ==> items == old(items) && error.None?
      ensures ZoneSearch(db, n).Some? && ZoneSearch(db, n).value.origin == FullName(n) ==>
        error.None?
        && items == old(items)[NameModel := ListAt(old(items), NameModel) + [ZoneItem(ZoneSearch(db, n).value)]]
      ensures ZoneSearch(db, n).Some? && ZoneSearch(db, n).value.origin != FullName(n) ==>
        match GetRecord(db, n)
        case Ok(rec) =>
          error.None? && items == old(items)[RecordModel := ListAt(old(items), RecordModel) + [RecordItem(rec)]]
        case Err(e) =>
          error == Some(e) && items == old(items)[RecordModel := ListAt(old(items), RecordModel)]
    {
      var zone := GetZone(db, n);
      if zone.None? {
        return None;
      }
      var z := zone.value;
      if z.origin == n.name + "." + n.extension {
        if NameModel !in items {
          items := items[NameModel := []];
        }
        items := items[NameModel := items[NameModel] + [ZoneItem(z)]];
        return None;
      }
      if RecordModel !in items {
        items := items[RecordModel := []];
      }
      match GetRecord(db, n) {
        case Ok(rec) =>
          items := items[RecordModel := items[RecordModel] + [RecordItem(rec)]];
          error := None;
        case Err(e) =>
          error := Some(e);
      }
    }
  }
}
