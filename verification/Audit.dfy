/**
 The hash-chained log: a writer that caches the last hash, against a verifier that
 recomputes every one. Digests are any function of a line; what needs it to be
 injective says so.
 */
module Audit {
  import opened Wrappers

  type Digest = string

  const GENESIS: Digest := "0000000000000000000000000000000000000000000000000000000000000000"

  type Fields = map<string, string>

  // A line in canonical form, one that parses but is not canonical, or one torn mid-write.
  datatype Line = Canonical(fields: Fields) | Loose(fields: Fields, text: string) | Torn(text: string)

  // One UTC day of one writing process.
  datatype File = File(day: string, role: string)

  function Lines(files: map<File, seq<Line>>, file: File): seq<Line> { if file in files then files[file] else [] }

  function LastHash(hash: Line -> Digest, lines: seq<Line>): Digest {
    if lines == [] then GENESIS else hash(lines[|lines| - 1])
  }

  // ----- verification

  datatype Check = Intact(count: nat) | Broken(count: nat) | Unreadable

  function VerifyFrom(hash: Line -> Digest, lines: seq<Line>, i: nat, prev: Digest): Check
    requires i <= |lines|
    decreases |lines| - i
  {
    if i == |lines| then Intact(i)
    else if lines[i].Torn? || "prev_hash" !in lines[i].fields then Unreadable
    else if lines[i].fields["prev_hash"] != prev || !lines[i].Canonical? then Broken(i)
    else VerifyFrom(hash, lines, i + 1, hash(lines[i]))
  }

  method VerifyChain(hash: Line -> Digest, lines: seq<Line>) returns (r: Check)
    ensures r == VerifyFrom(hash, lines, 0, GENESIS)
  {
    var prev, count := GENESIS, 0;
    while count < |lines|
      invariant 0 <= count <= |lines|
      invariant VerifyFrom(hash, lines, 0, GENESIS) == VerifyFrom(hash, lines, count, prev)
    {
      var line := lines[count];
      if line.Torn? || "prev_hash" !in line.fields {
        return Unreadable;
      }
      if line.fields["prev_hash"] != prev {
        return Broken(count);
      }
      if !line.Canonical? {
        return Broken(count);
      }
      prev := hash(line);
      count := count + 1;
    }
    return Intact(count);
  }

  function CountOf(r: Check): nat {
    match r
    case Intact(n) => n
    case Broken(n) => n
    case Unreadable => 0
  }

  function Counted(hash: Line -> Digest, files: map<File, seq<Line>>, paths: seq<File>): nat {
    if paths == [] then 0
    else Counted(hash, files, paths[..|paths| - 1])
         + CountOf(VerifyFrom(hash, Lines(files, paths[|paths| - 1]), 0, GENESIS))
  }

  // The files of a day that do not verify, in order.
  function Failing(hash: Line -> Digest, files: map<File, seq<Line>>, paths: seq<File>): seq<File> {
    if paths == [] then []
    else
      var last := paths[|paths| - 1];
      Failing(hash, files, paths[..|paths| - 1])
      + if VerifyFrom(hash, Lines(files, last), 0, GENESIS).Intact? then [] else [last]
  }

  lemma {:induction false} FailingAre(hash: Line -> Digest, files: map<File, seq<Line>>, paths: seq<File>)
    ensures forall f :: f in Failing(hash, files, paths) <==> f in paths && !Verifies(hash, Lines(files, f))
    ensures Failing(hash, files, paths) == [] <==>
            forall i :: 0 <= i < |paths| ==> Verifies(hash, Lines(files, paths[i]))
  {
    hide Verifies, VerifyFrom, Lines;
    if paths != [] {
      var before, last := paths[..|paths| - 1], paths[|paths| - 1];
      assert paths == before + [last];
      FailingAre(hash, files, before);
      ScanVerifies(hash, Lines(files, last));
    }
  }

  method VerifyDay(hash: Line -> Digest, files: map<File, seq<Line>>, paths: seq<File>)
    returns (raised: bool, ok: bool, total: nat, broken: seq<File>)
    ensures raised <==> exists i :: 0 <= i < |paths| && VerifyFrom(hash, Lines(files, paths[i]), 0, GENESIS).Unreadable?
    ensures !raised ==> (ok <==> forall i :: 0 <= i < |paths| ==> Verifies(hash, Lines(files, paths[i])))
    ensures !raised ==> forall f :: f in broken <==> f in paths && !Verifies(hash, Lines(files, f))
    ensures !raised ==> total == Counted(hash, files, paths)
  {
    hide Verifies, VerifyFrom, Lines;
    raised, ok, total, broken := false, false, 0, [];
    var i := 0;
    while i < |paths|
      invariant 0 <= i <= |paths|
      invariant broken == Failing(hash, files, paths[..i]) && total == Counted(hash, files, paths[..i])
      invariant forall j :: 0 <= j < i ==> !VerifyFrom(hash, Lines(files, paths[j]), 0, GENESIS).Unreadable?
    {
      var r := VerifyChain(hash, Lines(files, paths[i]));
      if r.Unreadable? {
        raised := true;
        return;
      }
      assert paths[..i + 1][..i] == paths[..i];
      total := total + CountOf(r);
      if !r.Intact? {
        broken := broken + [paths[i]];
      }
      i := i + 1;
    }
    assert paths[..i] == paths;
    ok := broken == [];
    FailingAre(hash, files, paths);
  }

  lemma ScanVerifies(hash: Line -> Digest, lines: seq<Line>)
    ensures VerifyFrom(hash, lines, 0, GENESIS).Intact? <==> Verifies(hash, lines)
  {
    VerifiesByLinks(hash, lines, 0);
  }

  // A line that is canonical and carries the hash of everything before it.
  ghost predicate Linked(hash: Line -> Digest, lines: seq<Line>, i: nat)
    requires i < |lines|
  {
    lines[i].Canonical? && "prev_hash" in lines[i].fields
    && lines[i].fields["prev_hash"] == LastHash(hash, lines[..i])
  }

  ghost predicate Verifies(hash: Line -> Digest, lines: seq<Line>) {
    forall i :: 0 <= i < |lines| ==> Linked(hash, lines, i)
  }

  // The scan accepts exactly the files in which every line is linked to the one before.
  lemma {:induction false} VerifiesByLinks(hash: Line -> Digest, lines: seq<Line>, i: nat)
    requires i <= |lines| && forall j :: 0 <= j < i ==> Linked(hash, lines, j)
    ensures VerifyFrom(hash, lines, i, LastHash(hash, lines[..i])) == Intact(|lines|) <==> Verifies(hash, lines)
    ensures VerifyFrom(hash, lines, i, LastHash(hash, lines[..i])).Intact? <==> Verifies(hash, lines)
    decreases |lines| - i
  {
    if i < |lines| {
      if Linked(hash, lines, i) {
        VerifiesByLinks(hash, lines, i + 1);
      } else {
        assert !Verifies(hash, lines);
      }
    }
  }

  // The scan stops at the first line that is not linked: unreadable if it is torn or names no previous hash,
  // broken otherwise, after as many good lines as there are before it.
  lemma {:induction false} ScanStopsAtFirst(hash: Line -> Digest, lines: seq<Line>, i: nat)
    requires i <= |lines| && forall j :: 0 <= j < i ==> Linked(hash, lines, j)
    ensures var r := VerifyFrom(hash, lines, i, LastHash(hash, lines[..i]));
      && (r.Intact? ==> r.count == |lines| && forall j :: 0 <= j < |lines| ==> Linked(hash, lines, j))
      && (r.Broken? ==> r.count < |lines| && !lines[r.count].Torn? && "prev_hash" in lines[r.count].fields
                        && !Linked(hash, lines, r.count) && forall j :: 0 <= j < r.count ==> Linked(hash, lines, j))
      && (r.Unreadable? ==> exists n :: 0 <= n < |lines| && (lines[n].Torn? || "prev_hash" !in lines[n].fields)
                                        && forall j :: 0 <= j < n ==> Linked(hash, lines, j))
    decreases |lines| - i
  {
    if i < |lines| && Linked(hash, lines, i) {
      ScanStopsAtFirst(hash, lines, i + 1);
    }
  }

  // ----- the writer

  datatype Entry = Entry(id: string, ts: string, day: string, kind: string, payload: Fields)

  // The payload is merged last, over the fields the log itself supplies.
  function Recorded(e: Entry, prev: Digest): Fields {
    map["record_id" := e.id, "ts" := e.ts, "prev_hash" := prev, "kind" := e.kind] + e.payload
  }

  // A record says what it was given: its payload whole, and what the payload leaves of the log's own fields.
  lemma RecordCarries(e: Entry, prev: Digest, k: string)
    ensures var r := Recorded(e, prev);
      && (k in e.payload ==> k in r && r[k] == e.payload[k])
      && (k !in e.payload ==>
            match k
            case "record_id" => k in r && r[k] == e.id
            case "ts" => k in r && r[k] == e.ts
            case "prev_hash" => k in r && r[k] == prev
            case "kind" => k in r && r[k] == e.kind
            case _ => k !in r)
  {
  }

  datatype Cache = Cache(prev: Option<Digest>, file: Option<File>)

  // The hash the next record will carry.
  function Previous(hash: Line -> Digest, files: map<File, seq<Line>>, cache: Cache, file: File): Digest {
    if cache.prev.None? || cache.file != Some(file) then LastHash(hash, Lines(files, file)) else cache.prev.value
  }

  function Appended(hash: Line -> Digest, files: map<File, seq<Line>>, cache: Cache, role: string, e: Entry)
    : map<File, seq<Line>>
  {
    var file := File(e.day, role);
    files[file := Lines(files, file) + [Canonical(Recorded(e, Previous(hash, files, cache, file)))]]
  }

  function Cached(hash: Line -> Digest, files: map<File, seq<Line>>, cache: Cache, role: string, e: Entry): Cache {
    var file := File(e.day, role);
    Cache(Some(hash(Canonical(Recorded(e, Previous(hash, files, cache, file))))), Some(file))
  }

  class Disk {
    var files: map<File, seq<Line>>

    constructor ()
      ensures files == map[]
    {
      files := map[];
    }
  }

  class AuditLog {
    const hash: Line -> Digest
    const role: string
    const disk: Disk
    var prevHash: Option<Digest>
    var path: Option<File>

    // A fresh process knows nothing of what it wrote before.
    constructor (hash: Line -> Digest, role: string, disk: Disk)
      ensures this.hash == hash && this.role == role && this.disk == disk
      ensures Memory() == Cache(None, None) && Valid()
    {
      this.hash, this.role, this.disk := hash, role, disk;
      prevHash, path := None, None;
    }

    function Memory(): Cache
      reads this
    {
      Cache(prevHash, path)
    }

    ghost predicate Valid()
      reads this, disk
    {
      Faithful(hash, disk.files, Memory(), role)
    }

    method Append(e: Entry) returns (fields: Fields)
      requires Valid()
      modifies this, disk
      ensures disk.files == Appended(hash, old(disk.files), old(Memory()), role, e)
      ensures Memory() == Cached(hash, old(disk.files), old(Memory()), role, e)
      ensures fields == Recorded(e, LastHash(hash, Lines(old(disk.files), File(e.day, role))))
      ensures Valid()
    {
      var file := File(e.day, role);
      if prevHash.None? || path != Some(file) {
        prevHash := Some(LastHash(hash, Lines(disk.files, file)));
        path := Some(file);
      }
      fields := Recorded(e, prevHash.value);
      var line := Canonical(fields);
      disk.files := disk.files[file := Lines(disk.files, file) + [line]];
      prevHash := Some(hash(line));
    }
  }

  // ----- one append

  // The cached hash, when there is one, is the hash of the cached file's last line.
  ghost predicate Faithful(hash: Line -> Digest, files: map<File, seq<Line>>, cache: Cache, role: string) {
    && (cache.prev.Some? <==> cache.file.Some?)
    && (cache.prev.Some? ==> cache.file.value.role == role && cache.prev.value == LastHash(hash, Lines(files, cache.file.value)))
  }

  lemma AppendLinks(hash: Line -> Digest, lines: seq<Line>, line: Line)
    ensures Verifies(hash, lines + [line]) <==>
            Verifies(hash, lines) && line.Canonical? && "prev_hash" in line.fields
            && line.fields["prev_hash"] == LastHash(hash, lines)
  {
    var all := lines + [line];
    assert all[..|lines|] == lines;
    forall i | 0 <= i < |lines| ensures Linked(hash, all, i) <==> Linked(hash, lines, i) {
      assert all[..i] == lines[..i];
    }
    assert Verifies(hash, all) ==> Linked(hash, all, |lines|);
    if Verifies(hash, all) {
      forall i | 0 <= i < |lines| ensures Linked(hash, lines, i) { assert Linked(hash, all, i); }
    }
  }

  // An appended file verifies exactly when it did before and the payload does not forge the link.
  lemma AppendVerifiesIff(hash: Line -> Digest, files: map<File, seq<Line>>, cache: Cache, role: string, e: Entry)
    requires Faithful(hash, files, cache, role)
    ensures var file := File(e.day, role);
      Verifies(hash, Lines(Appended(hash, files, cache, role, e), file)) <==>
      Verifies(hash, Lines(files, file))
      && ("prev_hash" in e.payload ==> e.payload["prev_hash"] == LastHash(hash, Lines(files, file)))
  {
    var file := File(e.day, role);
    AppendLinks(hash, Lines(files, file), Canonical(Recorded(e, Previous(hash, files, cache, file))));
  }

  // ----- any number of writers, restarts and days

  datatype System = System(files: map<File, seq<Line>>, caches: map<string, Cache>)

  datatype Event = Append(role: string, entry: Entry) | Restart(role: string)

  function CacheOf(s: System, role: string): Cache { if role in s.caches then s.caches[role] else Cache(None, None) }

  function Step(hash: Line -> Digest, s: System, ev: Event): System {
    match ev
    case Append(role, e) =>
      System(Appended(hash, s.files, CacheOf(s, role), role, e),
             s.caches[role := Cached(hash, s.files, CacheOf(s, role), role, e)])
    case Restart(role) => s.(caches := s.caches[role := Cache(None, None)])
  }

  function After(hash: Line -> Digest, s: System, evs: seq<Event>): System {
    if evs == [] then s else Step(hash, After(hash, s, evs[..|evs| - 1]), evs[|evs| - 1])
  }

  ghost predicate Sound(hash: Line -> Digest, s: System) {
    && (forall f :: f in s.files ==> Verifies(hash, s.files[f]))
    && (forall role :: Faithful(hash, s.files, CacheOf(s, role), role))
  }

  ghost predicate Unforged(ev: Event) { ev.Append? ==> "prev_hash" !in ev.entry.payload }

  lemma StepKeepsSound(hash: Line -> Digest, s: System, ev: Event)
    requires Sound(hash, s) && Unforged(ev)
    ensures Sound(hash, Step(hash, s, ev))
  {
    var s' := Step(hash, s, ev);
    if ev.Append? {
      var role, file := ev.role, File(ev.entry.day, ev.role);
      assert Faithful(hash, s.files, CacheOf(s, role), role);
      AppendVerifiesIff(hash, s.files, CacheOf(s, role), role, ev.entry);
      forall other ensures Faithful(hash, s'.files, CacheOf(s', other), other) {
        assert Faithful(hash, s.files, CacheOf(s, other), other);
        assert other != role && CacheOf(s, other).file.Some? ==> CacheOf(s, other).file.value != file;
      }
    } else {
      forall other ensures Faithful(hash, s'.files, CacheOf(s', other), other) {
        assert Faithful(hash, s.files, CacheOf(s, other), other);
      }
    }
  }

  // Every file verifies in every interleaving of per-role writers, across restarts and day rollover.
  lemma {:induction false} EveryFileVerifies(hash: Line -> Digest, s: System, evs: seq<Event>)
    requires Sound(hash, s) && forall i :: 0 <= i < |evs| ==> Unforged(evs[i])
    ensures Sound(hash, After(hash, s, evs))
    decreases |evs|
  {
    if evs != [] {
      EveryFileVerifies(hash, s, evs[..|evs| - 1]);
      StepKeepsSound(hash, After(hash, s, evs[..|evs| - 1]), evs[|evs| - 1]);
    }
  }

  // ----- what a verified file proves

  ghost predicate Ideal(hash: Line -> Digest) {
    (forall a, b :: hash(a) == hash(b) ==> a == b) && (forall a :: hash(a) != GENESIS)
  }

  lemma PrefixVerifies(hash: Line -> Digest, lines: seq<Line>)
    requires Verifies(hash, lines) && lines != []
    ensures Verifies(hash, lines[..|lines| - 1])
    ensures lines[|lines| - 1].Canonical? && "prev_hash" in lines[|lines| - 1].fields
    ensures lines[|lines| - 1].fields["prev_hash"] == LastHash(hash, lines[..|lines| - 1])
  {
    var last := lines[|lines| - 1];
    assert lines == lines[..|lines| - 1] + [last];
    AppendLinks(hash, lines[..|lines| - 1], last);
  }

  // Two verifying files that end in the same line are the same file.
  lemma {:induction false} LastLineFixesFile(hash: Line -> Digest, a: seq<Line>, b: seq<Line>)
    requires Ideal(hash) && Verifies(hash, a) && Verifies(hash, b)
    requires a != [] && b != [] && a[|a| - 1] == b[|b| - 1]
    ensures a == b
    decreases |a|
  {
    PrefixVerifies(hash, a);
    PrefixVerifies(hash, b);
    var a0, b0 := a[..|a| - 1], b[..|b| - 1];
    assert LastHash(hash, a0) == LastHash(hash, b0);
    if a0 != [] && b0 != [] {
      LastLineFixesFile(hash, a0, b0);
    }
    assert a0 == b0;
    assert a == a0 + [a[|a| - 1]] && b == b0 + [b[|b| - 1]];
  }

  // Editing, dropping or inserting anything before an untouched last line is caught.
  lemma TamperingIsCaught(hash: Line -> Digest, lines: seq<Line>, forged: seq<Line>)
    requires Ideal(hash) && Verifies(hash, lines) && lines != [] && forged != lines
    requires forged != [] && forged[|forged| - 1] == lines[|lines| - 1]
    ensures !Verifies(hash, forged)
  {
    if Verifies(hash, forged) { LastLineFixesFile(hash, lines, forged); }
  }

  // Two processes on one role fork the chain: the second writes over a hash it cached before.
  lemma SharedRoleForks(hash: Line -> Digest, files: map<File, seq<Line>>, a: Cache, b: Cache, role: string, x: Entry, y: Entry)
    requires Ideal(hash) && Faithful(hash, files, a, role) && Faithful(hash, files, b, role)
    requires b.file == Some(File(y.day, role)) && x.day == y.day && "prev_hash" !in y.payload
    requires var lines := Lines(files, File(y.day, role));
             lines != [] ==> lines[|lines| - 1] != Canonical(Recorded(x, LastHash(hash, lines)))
    ensures var once := Appended(hash, files, a, role, x);
            !Verifies(hash, Lines(Appended(hash, once, b, role, y), File(y.day, role)))
  {
    var file := File(y.day, role);
    var lines := Lines(files, file);
    var first := Canonical(Recorded(x, LastHash(hash, lines)));
    var second := Canonical(Recorded(y, b.prev.value));
    AppendLinks(hash, lines + [first], second);
    assert LastHash(hash, lines + [first]) == hash(first);
  }
}
