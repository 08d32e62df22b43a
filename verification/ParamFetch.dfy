/** Fetching the proof parameters: the repair loop over the parameter cache, which downloads every
    file that is missing or wrong until all of them are right. */
module ParamFetch {
  import opened Entities

  datatype Param = Param(cid: string, digest: string, sectorSize: int)

  type Params = map<string, Param>

  type Cache = map<string, Bytes>

  const INVALID_SUFFIX: string := "-invalid-digest"

  // ---------------------------------------------------------------- which files are wanted

  predicate EndsWith(name: string, end: string) {
    |name| >= |end| && name[|name| - |end|..] == end
  }

  predicate HasExtension(name: string, extension: string) {
    |name| > |extension| + 1 && EndsWith(name, "." + extension)
  }

  /** With a list of sector sizes: no verifying keys, and of the parameters only those sizes. */
  predicate Wanted(params: Params, sizes: Option<seq<int>>, name: string)
    requires name in params
  {
    sizes.None? || !(HasExtension(name, "vk") || (HasExtension(name, "params") && params[name].sectorSize !in sizes.value))
  }

  predicate AllKnown(params: Params, names: seq<string>) {
    forall n :: n in names ==> n in params
  }

  function Retained(params: Params, sizes: Option<seq<int>>, names: seq<string>): (r: seq<string>)
    requires AllKnown(params, names)
    ensures forall n :: n in r <==> n in names && Wanted(params, sizes, n)
  {
    if names == [] then []
    else
      var rest := Retained(params, sizes, names[1..]);
      if Wanted(params, sizes, names[0]) then [names[0]] + rest else rest
  }

  /** Without a list of sizes every file is wanted. With one, a file ending in ".vk" is not, one ending in
      ".params" is if and only if its sector size is on the list, and any other file is. */
  lemma WantedIff(params: Params, sizes: Option<seq<int>>, n: string)
    requires n in params
    ensures sizes.None? ==> Wanted(params, sizes, n)
    ensures sizes.Some? && |n| > 3 && n[|n| - 3..] == ".vk" ==> !Wanted(params, sizes, n)
    ensures sizes.Some? && |n| > 7 && n[|n| - 7..] == ".params" ==>
              (Wanted(params, sizes, n) <==> params[n].sectorSize in sizes.value)
    ensures !(|n| > 3 && n[|n| - 3..] == ".vk") && !(|n| > 7 && n[|n| - 7..] == ".params") ==> Wanted(params, sizes, n)
  {
    assert "." + "vk" == ".vk" && "." + "params" == ".params";
    if |n| > 7 && n[|n| - 7..] == ".params" {
      assert n[|n| - 3..][2] == n[|n| - 7..][6] == 's';
    }
  }

  /** The filter, in terms of the names alone. */
  lemma RetainedIff(params: Params, sizes: Option<seq<int>>, names: seq<string>)
    requires AllKnown(params, names)
    ensures sizes.None? ==> forall n :: n in names ==> n in Retained(params, sizes, names)
    ensures forall n :: n in Retained(params, sizes, names) ==> n in names
    ensures sizes.Some? ==> forall n :: n in names ==>
              && (|n| > 3 && n[|n| - 3..] == ".vk" ==> n !in Retained(params, sizes, names))
              && (|n| > 7 && n[|n| - 7..] == ".params" ==>
                    (n in Retained(params, sizes, names) <==> params[n].sectorSize in sizes.value))
              && ((|n| > 3 && n[|n| - 3..] == ".vk") || (|n| > 7 && n[|n| - 7..] == ".params")
                  || n in Retained(params, sizes, names))
  {
    hide Wanted;
    forall n | n in names
      ensures sizes.None? ==> Wanted(params, sizes, n)
      ensures sizes.Some? && |n| > 3 && n[|n| - 3..] == ".vk" ==> !Wanted(params, sizes, n)
      ensures sizes.Some? && |n| > 7 && n[|n| - 7..] == ".params" ==>
                (Wanted(params, sizes, n) <==> params[n].sectorSize in sizes.value)
      ensures !(|n| > 3 && n[|n| - 3..] == ".vk") && !(|n| > 7 && n[|n| - 7..] == ".params") ==> Wanted(params, sizes, n)
    {
      WantedIff(params, sizes, n);
    }
  }

  // ---------------------------------------------------------------- one check of the cache

  /** The file is there and has the expected digest. */
  predicate Good(params: Params, hash: Bytes -> string, cache: Cache, name: string) {
    name in params && name in cache && hash(cache[name]) == params[name].digest
  }

  /** A file that is there, can be read, and has another digest is moved out of the way. */
  predicate Moved(params: Params, hash: Bytes -> string, cache: Cache, unreadable: set<string>, name: string) {
    name in cache && name !in unreadable && !Good(params, hash, cache, name)
  }

  function CheckOne(params: Params, hash: Bytes -> string, cache: Cache, unreadable: set<string>, name: string): Cache {
    if Moved(params, hash, cache, unreadable, name) then (cache - {name})[name + INVALID_SUFFIX := cache[name]] else cache
  }

  predicate Outdated(params: Params, hash: Bytes -> string, cache: Cache, unreadable: set<string>, name: string) {
    name in unreadable || !Good(params, hash, cache, name)
  }

  /** A check of the listed files, in their order: the cache afterwards, and the files to download. */
  datatype Checked = Checked(cache: Cache, bad: seq<string>)

  function Check(params: Params, hash: Bytes -> string, cache: Cache, unreadable: set<string>, names: seq<string>): Checked
    decreases |names|
  {
    if names == [] then Checked(cache, [])
    else
      var rest := Check(params, hash, CheckOne(params, hash, cache, unreadable, names[0]), unreadable, names[1..]);
      if Outdated(params, hash, cache, unreadable, names[0]) then Checked(rest.cache, [names[0]] + rest.bad) else rest
  }

  // ---------------------------------------------------------------- the repair loop

  /** What the outside world does in one round: the contents that downloads leave in the cache, for
      the files whose download leaves anything, and the files that cannot be read at the check. */
  datatype Round = Round(got: Cache, unreadable: set<string>)

  function Downloaded(cache: Cache, names: seq<string>, got: Cache): Cache
    decreases |names|
  {
    if names == [] then cache
    else
      Downloaded(if names[0] in got then cache[names[0] := got[names[0]]] else cache, names[1..], got)
  }

  function OneRound(params: Params, hash: Bytes -> string, cache: Cache, names: seq<string>, round: Round): Checked {
    Check(params, hash, Downloaded(cache, names, round.got), round.unreadable, names)
  }

  /** The loop over as many rounds as there are, until no file is left to download. */
  function Repair(params: Params, hash: Bytes -> string, cache: Cache, names: seq<string>, rounds: seq<Round>): Checked
    decreases |rounds|
  {
    if names == [] || rounds == [] then Checked(cache, names)
    else
      var next := OneRound(params, hash, cache, names, rounds[0]);
      Repair(params, hash, next.cache, next.bad, rounds[1..])
  }

  /** The first check and the loop, as `DownloadSectorSize` runs them. */
  function Fetch(params: Params, hash: Bytes -> string, cache: Cache, kept: seq<string>, unreadable: set<string>,
                 rounds: seq<Round>): Checked {
    var first := Check(params, hash, cache, unreadable, kept);
    Repair(params, hash, first.cache, first.bad, rounds)
  }

  // ---------------------------------------------------------------- the object

  class ParamCache {
    const params: Params
    const hash: Bytes -> string
    var files: Cache

    constructor (params: Params, hash: Bytes -> string, files: Cache)
      ensures this.params == params && this.hash == hash && this.files == files
    {
      this.params := params;
      this.hash := hash;
      this.files := files;
    }

    /** Which of the files are missing or wrong; the wrong ones are renamed. */
    method FilenamesRequiringDownload(names: seq<string>, unreadable: set<string>) returns (bad: seq<string>)
      requires AllKnown(params, names)
      modifies this`files
      ensures Checked(files, bad) == Check(params, hash, old(files), unreadable, names)
    {
      bad := [];
      var i := 0;
      while i < |names|
        invariant 0 <= i <= |names|
        invariant var rest := Check(params, hash, files, unreadable, names[i..]);
                  Checked(rest.cache, bad + rest.bad) == Check(params, hash, old(files), unreadable, names)
      {
        var name := names[i];
        assert names[i..][0] == name && names[i..][1..] == names[i + 1..];
        ghost var rest := Check(params, hash, CheckOne(params, hash, files, unreadable, name), unreadable, names[i + 1..]);
        assert (bad + [name]) + rest.bad == bad + ([name] + rest.bad);
        if name !in files || name in unreadable {
          bad := bad + [name];
        } else if hash(files[name]) != params[name].digest {
          files := (files - {name})[name + INVALID_SUFFIX := files[name]];
          bad := bad + [name];
        }
        i := i + 1;
      }
    }

    /** One download after another. */
    method DownloadFiles(names: seq<string>, got: Cache)
      modifies this`files
      ensures files == Downloaded(old(files), names, got)
    {
      var i := 0;
      while i < |names|
        invariant 0 <= i <= |names|
        invariant Downloaded(files, names[i..], got) == Downloaded(old(files), names, got)
      {
        assert names[i..][0] == names[i] && names[i..][1..] == names[i + 1..];
        if names[i] in got {
          files := files[names[i] := got[names[i]]];
        }
        i := i + 1;
      }
    }

    /** The filter, the first check, and the loop for as many rounds as are given; `left` is empty if
        and only if it returned. */
    method DownloadSectorSize(names: seq<string>, sizes: Option<seq<int>>, unreadable: set<string>, rounds: seq<Round>)
      returns (left: seq<string>)
      requires AllKnown(params, names)
      modifies this`files
      ensures Checked(files, left) == Fetch(params, hash, old(files), Retained(params, sizes, names), unreadable, rounds)
      ensures left == [] && Distinct(names)
              && (forall n :: n in names ==> (|n| > 7 && n[|n| - 7..] == ".params") || (|n| > 3 && n[|n| - 3..] == ".vk")) ==>
                forall f :: f in names && (sizes.None? || (f[|f| - 3..] != ".vk" && params[f].sectorSize in sizes.value)) ==>
                  f in files && hash(files[f]) == params[f].digest
    {
      hide Check, Downloaded, Retained, Wanted;
      left := Retain(names, sizes);
      left := FilenamesRequiringDownload(left, unreadable);
      ghost var first := Check(params, hash, old(files), unreadable, Retained(params, sizes, names));
      CheckListsNames(params, hash, old(files), unreadable, Retained(params, sizes, names));
      var i := 0;
      while left != [] && i < |rounds|
        invariant 0 <= i <= |rounds| && AllKnown(params, left)
        invariant Repair(params, hash, files, left, rounds[i..]) == Repair(params, hash, first.cache, first.bad, rounds)
        decreases |rounds| - i
      {
        assert rounds[i..][0] == rounds[i] && rounds[i..][1..] == rounds[i + 1..];
        CheckListsNames(params, hash, Downloaded(files, left, rounds[i].got), rounds[i].unreadable, left);
        DownloadFiles(left, rounds[i].got);
        left := FilenamesRequiringDownload(left, rounds[i].unreadable);
        i := i + 1;
      }
      hide Repair;
      if Distinct(names)
         && forall n :: n in names ==> (|n| > 7 && n[|n| - 7..] == ".params") || (|n| > 3 && n[|n| - 3..] == ".vk") {
        forall f | f in names && left == [] && (sizes.None? || (f[|f| - 3..] != ".vk" && params[f].sectorSize in sizes.value))
          ensures f in files && hash(files[f]) == params[f].digest
        {
          DownloadIsCorrect(params, hash, old(files), names, sizes, unreadable, rounds, f);
        }
      }
    }

    method Retain(names: seq<string>, sizes: Option<seq<int>>) returns (kept: seq<string>)
      requires AllKnown(params, names)
      ensures kept == Retained(params, sizes, names)
      ensures IsSublist(kept, names)
      ensures sizes.None? ==> kept == names
      ensures sizes.Some? ==> forall n :: n in names ==>
                && (|n| > 3 && n[|n| - 3..] == ".vk" ==> n !in kept)
                && (|n| > 7 && n[|n| - 7..] == ".params" ==> (n in kept <==> params[n].sectorSize in sizes.value))
                && (!(|n| > 3 && n[|n| - 3..] == ".vk") && !(|n| > 7 && n[|n| - 7..] == ".params") ==> n in kept)
    {
      hide Wanted;
      kept := [];
      var i := 0;
      while i < |names|
        invariant 0 <= i <= |names|
        invariant kept + Retained(params, sizes, names[i..]) == Retained(params, sizes, names)
      {
        var name := names[i];
        assert names[i..][0] == name && names[i..][1..] == names[i + 1..];
        if Wanted(params, sizes, name) {
          assert (kept + [name]) + Retained(params, sizes, names[i + 1..]) == kept + ([name] + Retained(params, sizes, names[i + 1..]));
          kept := kept + [name];
        }
        i := i + 1;
      }
      RetainedIff(params, sizes, names);
      RetainedIsSublist(params, sizes, names);
    }
  }

  lemma {:induction false} CheckListsNames(params: Params, hash: Bytes -> string, cache: Cache, unreadable: set<string>,
                                           names: seq<string>)
    ensures forall n :: n in Check(params, hash, cache, unreadable, names).bad ==> n in names
    decreases |names|
  {
    if names != [] {
      CheckListsNames(params, hash, CheckOne(params, hash, cache, unreadable, names[0]), unreadable, names[1..]);
    }
  }

  // ---------------------------------------------------------------- names that do not alias

  ghost predicate Distinct(names: seq<string>) {
    forall i, j :: 0 <= i < j < |names| ==> names[i] != names[j]
  }

  /** No listed name is what another listed file would be renamed to. */
  ghost predicate NoAlias(all: set<string>) {
    forall m, n :: m in all && n in all ==> n != m + INVALID_SUFFIX
  }

  ghost predicate Listed(names: seq<string>, all: set<string>) {
    Distinct(names) && forall n :: n in names ==> n in all
  }

  /** Names with the two extensions of the parameter files never alias. */
  lemma ExtensionsDoNotAlias(all: set<string>)
    requires forall n :: n in all ==> HasExtension(n, "params") || HasExtension(n, "vk")
    ensures NoAlias(all)
  {
    forall m, n | m in all && n in all ensures n != m + INVALID_SUFFIX {
      assert (m + INVALID_SUFFIX)[|m + INVALID_SUFFIX| - 1] == 't';
      if HasExtension(n, "params") {
        assert n[|n| - 7..][6] == ("." + "params")[6] == 's';
      } else {
        assert n[|n| - 3..][2] == ("." + "vk")[2] == 'k';
      }
    }
  }

  /** The file is as it was, or absent as it was. */
  predicate SameAt(cache: Cache, cache': Cache, name: string) {
    (name in cache <==> name in cache') && (name in cache ==> cache[name] == cache'[name])
  }

  // ---------------------------------------------------------------- what a check does to one file

  lemma CheckOneSpares(params: Params, hash: Bytes -> string, cache: Cache, unreadable: set<string>, all: set<string>,
                       name: string, f: string)
    requires NoAlias(all) && name in all && f in all
    requires f != name || !Moved(params, hash, cache, unreadable, name)
    ensures SameAt(cache, CheckOne(params, hash, cache, unreadable, name), f)
  {
  }

  /** The condition on names is exact: checking one file spoils another verified one if and only if it
      moves the file over it, and what it moves is not what is expected there. */
  lemma CheckOneSparesIff(params: Params, hash: Bytes -> string, cache: Cache, unreadable: set<string>, name: string, f: string)
    requires f != name && Good(params, hash, cache, f)
    ensures Good(params, hash, CheckOne(params, hash, cache, unreadable, name), f)
            <==> !(f == name + INVALID_SUFFIX && Moved(params, hash, cache, unreadable, name)
                   && hash(cache[name]) != params[f].digest)
  {
  }

  /** A check leaves every file alone that is not listed or is good, and lists exactly the others. */
  lemma {:induction false} CheckOutcome(params: Params, hash: Bytes -> string, cache: Cache, unreadable: set<string>,
                                        all: set<string>, names: seq<string>, f: string)
    requires NoAlias(all) && Listed(names, all) && f in all
    ensures var after := Check(params, hash, cache, unreadable, names);
            && (f in after.bad <==> f in names && Outdated(params, hash, cache, unreadable, f))
            && (f !in after.bad ==> SameAt(cache, after.cache, f))
    decreases |names|
  {
    if names != [] {
      var next := CheckOne(params, hash, cache, unreadable, names[0]);
      var rest := Check(params, hash, next, unreadable, names[1..]);
      assert forall n :: n in names[1..] ==> n in names;
      assert f in names <==> f == names[0] || f in names[1..];
      CheckOutcome(params, hash, next, unreadable, all, names[1..], f);
      if f != names[0] || !Outdated(params, hash, cache, unreadable, f) {
        CheckOneSpares(params, hash, cache, unreadable, all, names[0], f);
      }
    }
  }

  /** A check touches nothing but the files it lists and the names it moves them to. */
  lemma {:induction false} CheckLeaves(params: Params, hash: Bytes -> string, cache: Cache, unreadable: set<string>,
                                       names: seq<string>, g: string)
    requires g !in names && forall n :: n in names ==> g != n + INVALID_SUFFIX
    ensures SameAt(cache, Check(params, hash, cache, unreadable, names).cache, g)
    decreases |names|
  {
    if names != [] {
      assert names[0] in names && forall n :: n in names[1..] ==> n in names;
      CheckLeaves(params, hash, CheckOne(params, hash, cache, unreadable, names[0]), unreadable, names[1..], g);
    }
  }

  /** A check lists exactly the files that are missing, cannot be read or have another digest than
      expected; of these it moves those it could read aside, content and all; every other listed file it
      leaves alone. */
  lemma {:induction false} CheckSorts(params: Params, hash: Bytes -> string, cache: Cache, unreadable: set<string>,
                                      all: set<string>, names: seq<string>, f: string)
    requires NoAlias(all) && Listed(names, all) && AllKnown(params, names) && f in names
    ensures var after := Check(params, hash, cache, unreadable, names);
            && (f in after.bad <==> f !in cache || f in unreadable || hash(cache[f]) != params[f].digest)
            && (f in cache && f !in unreadable && hash(cache[f]) != params[f].digest ==>
                  && f !in after.cache
                  && f + "-invalid-digest" in after.cache && after.cache[f + "-invalid-digest"] == cache[f])
            && (f !in after.bad || f in unreadable ==>
                  (f in after.cache <==> f in cache) && (f in cache ==> after.cache[f] == cache[f]))
    decreases |names|
  {
    var next := CheckOne(params, hash, cache, unreadable, names[0]);
    CheckOutcome(params, hash, cache, unreadable, all, names, f);
    assert forall n :: n in names[1..] ==> n in names;
    if f == names[0] {
      assert f !in names[1..];
      CheckLeaves(params, hash, next, unreadable, names[1..], f);
      forall n | n in names[1..] ensures f + INVALID_SUFFIX != n + INVALID_SUFFIX && f + INVALID_SUFFIX != n {
        assert (f + INVALID_SUFFIX)[..|f|] == f;
        assert (n + INVALID_SUFFIX)[..|n|] == n;
      }
      CheckLeaves(params, hash, next, unreadable, names[1..], f + INVALID_SUFFIX);
    } else {
      assert f in names[1..];
      CheckOneSpares(params, hash, cache, unreadable, all, names[0], f);
      CheckSorts(params, hash, next, unreadable, all, names[1..], f);
    }
  }

  lemma {:induction false} DownloadedAt(cache: Cache, names: seq<string>, got: Cache, f: string)
    ensures var after := Downloaded(cache, names, got);
            if f in names && f in got then f in after && after[f] == got[f] else SameAt(cache, after, f)
    decreases |names|
  {
    if names != [] {
      DownloadedAt(if names[0] in got then cache[names[0] := got[names[0]]] else cache, names[1..], got, f);
    }
  }

  // ---------------------------------------------------------------- the lists get shorter

  /** `a` is `b` with some elements left out, in the same order. */
  predicate IsSublist(a: seq<string>, b: seq<string>) {
    if b == [] then a == []
    else (a != [] && a[0] == b[0] && IsSublist(a[1..], b[1..])) || IsSublist(a, b[1..])
  }

  lemma {:induction false} SublistFacts(a: seq<string>, b: seq<string>)
    requires IsSublist(a, b)
    ensures |a| <= |b| && (forall n :: n in a ==> n in b)
    ensures Distinct(b) ==> Distinct(a)
    ensures |a| == |b| ==> a == b
    decreases |b|
  {
    if b != [] {
      assert forall n :: n in b[1..] ==> n in b;
      assert Distinct(b) ==> Distinct(b[1..]);
      if a != [] && a[0] == b[0] && IsSublist(a[1..], b[1..]) {
        SublistFacts(a[1..], b[1..]);
        assert forall i :: 0 < i < |a| ==> a[i] == a[1..][i - 1] && a[i] in a[1..];
        assert b == [b[0]] + b[1..] && a == [a[0]] + a[1..];
        assert Distinct(b) ==> b[0] !in b[1..];
      } else {
        SublistFacts(a, b[1..]);
      }
    }
  }

  lemma {:induction false} CheckIsSublist(params: Params, hash: Bytes -> string, cache: Cache, unreadable: set<string>,
                                          names: seq<string>)
    ensures IsSublist(Check(params, hash, cache, unreadable, names).bad, names)
    decreases |names|
  {
    if names != [] {
      var next := CheckOne(params, hash, cache, unreadable, names[0]);
      var rest := Check(params, hash, next, unreadable, names[1..]).bad;
      CheckIsSublist(params, hash, next, unreadable, names[1..]);
      assert ([names[0]] + rest)[1..] == rest;
    }
  }

  ghost predicate SomeRight(params: Params, hash: Bytes -> string, cache: Cache, unreadable: set<string>, names: seq<string>) {
    exists f :: f in names && !Outdated(params, hash, cache, unreadable, f)
  }

  /** A round lists, in the old order, the files that are still wrong, and no others; the list gets
      shorter if and only if some listed file has become right, by this download or an earlier one. */
  lemma RoundShortensIff(params: Params, hash: Bytes -> string, cache: Cache, all: set<string>, names: seq<string>, round: Round)
    requires NoAlias(all) && Listed(names, all)
    ensures var bad := OneRound(params, hash, cache, names, round).bad;
            && IsSublist(bad, names)
            && (|bad| < |names| <==> SomeRight(params, hash, Downloaded(cache, names, round.got), round.unreadable, names))
  {
    var fetched := Downloaded(cache, names, round.got);
    var bad := OneRound(params, hash, cache, names, round).bad;
    CheckIsSublist(params, hash, fetched, round.unreadable, names);
    SublistFacts(bad, names);
    forall f | f in names ensures f in bad <==> Outdated(params, hash, fetched, round.unreadable, f) {
      CheckOutcome(params, hash, fetched, round.unreadable, all, names, f);
    }
    if forall f :: f in names ==> f in bad {
      AllListedIsSame(bad, names);
    }
  }

  /** A sublist that has lost no element is the whole list. */
  lemma {:induction false} AllListedIsSame(a: seq<string>, b: seq<string>)
    requires IsSublist(a, b) && Distinct(b) && forall n :: n in b ==> n in a
    ensures a == b
    decreases |b|
  {
    SublistFacts(a, b);
    if b != [] {
      if a != [] && a[0] == b[0] && IsSublist(a[1..], b[1..]) {
        assert forall n :: n in b[1..] ==> n in b && n != b[0];
        assert forall n :: n in a && n != a[0] ==> n in a[1..];
        assert Distinct(b[1..]);
        AllListedIsSame(a[1..], b[1..]);
        assert a == [a[0]] + a[1..] && b == [b[0]] + b[1..];
      } else {
        assert b[0] in a;
        SublistFacts(a, b[1..]);
      }
    }
  }

  // ---------------------------------------------------------------- the whole loop

  lemma RoundListed(params: Params, hash: Bytes -> string, cache: Cache, all: set<string>, names: seq<string>, round: Round)
    requires Listed(names, all)
    ensures Listed(OneRound(params, hash, cache, names, round).bad, all)
  {
    CheckIsSublist(params, hash, Downloaded(cache, names, round.got), round.unreadable, names);
    SublistFacts(OneRound(params, hash, cache, names, round).bad, names);
  }

  /** A round leaves every file alone that it does not list; and a file it drops from the list is good
      and is the one that was checked. */
  lemma RoundOutcome(params: Params, hash: Bytes -> string, cache: Cache, all: set<string>, names: seq<string>, round: Round, f: string)
    requires NoAlias(all) && Listed(names, all) && f in all
    ensures var after := OneRound(params, hash, cache, names, round);
            && (f in after.bad ==> f in names)
            && (f !in names ==> SameAt(cache, after.cache, f))
            && (f in names && f !in after.bad ==> Good(params, hash, after.cache, f))
  {
    var fetched := Downloaded(cache, names, round.got);
    DownloadedAt(cache, names, round.got, f);
    CheckOutcome(params, hash, fetched, round.unreadable, all, names, f);
  }

  /** However many rounds are made: what is not listed stays as it is, and what has left the list is
      good and stays good. */
  lemma {:induction false} RepairOutcome(params: Params, hash: Bytes -> string, cache: Cache, all: set<string>,
                                         names: seq<string>, rounds: seq<Round>, f: string)
    requires NoAlias(all) && Listed(names, all) && f in all
    ensures var after := Repair(params, hash, cache, names, rounds);
            && (f in after.bad ==> f in names)
            && (f !in names ==> SameAt(cache, after.cache, f))
            && (f in names && f !in after.bad ==> Good(params, hash, after.cache, f))
    decreases |rounds|
  {
    if names != [] && rounds != [] {
      var next := OneRound(params, hash, cache, names, rounds[0]);
      RoundListed(params, hash, cache, all, names, rounds[0]);
      RoundOutcome(params, hash, cache, all, names, rounds[0], f);
      RepairOutcome(params, hash, next.cache, all, next.bad, rounds[1..], f);
    }
  }

  /** Partial correctness: when the loop has returned, every file the filter kept is there with its
      expected digest, and those that were right from the start have not been touched. */
  lemma FetchIsCorrect(params: Params, hash: Bytes -> string, cache: Cache, kept: seq<string>, all: set<string>,
                       unreadable: set<string>, rounds: seq<Round>, f: string)
    requires NoAlias(all) && Listed(kept, all) && f in kept
    ensures var after := Fetch(params, hash, cache, kept, unreadable, rounds);
            && (after.bad == [] ==> Good(params, hash, after.cache, f))
            && (!Outdated(params, hash, cache, unreadable, f) ==> SameAt(cache, after.cache, f))
  {
    var first := Check(params, hash, cache, unreadable, kept);
    CheckOutcome(params, hash, cache, unreadable, all, kept, f);
    CheckIsSublist(params, hash, cache, unreadable, kept);
    SublistFacts(first.bad, kept);
    RepairOutcome(params, hash, first.cache, all, first.bad, rounds, f);
  }

  lemma {:induction false} RetainedIsSublist(params: Params, sizes: Option<seq<int>>, names: seq<string>)
    requires AllKnown(params, names)
    ensures IsSublist(Retained(params, sizes, names), names)
    ensures sizes.None? ==> Retained(params, sizes, names) == names
  {
    if names != [] {
      var rest := Retained(params, sizes, names[1..]);
      RetainedIsSublist(params, sizes, names[1..]);
      assert ([names[0]] + rest)[1..] == rest;
    }
  }

  lemma {:induction false} RetainedIsDistinct(params: Params, sizes: Option<seq<int>>, names: seq<string>)
    requires AllKnown(params, names) && Distinct(names)
    ensures Distinct(Retained(params, sizes, names))
  {
    if names != [] {
      assert Distinct(names[1..]) && names[0] !in names[1..];
      RetainedIsDistinct(params, sizes, names[1..]);
    }
  }

  /** A file the filter has dropped is never touched. */
  lemma FetchSparesOthers(params: Params, hash: Bytes -> string, cache: Cache, kept: seq<string>, all: set<string>,
                          unreadable: set<string>, rounds: seq<Round>, f: string)
    requires NoAlias(all) && Listed(kept, all) && f in all && f !in kept
    ensures SameAt(cache, Fetch(params, hash, cache, kept, unreadable, rounds).cache, f)
  {
    var first := Check(params, hash, cache, unreadable, kept);
    CheckOutcome(params, hash, cache, unreadable, all, kept, f);
    CheckIsSublist(params, hash, cache, unreadable, kept);
    SublistFacts(first.bad, kept);
    RepairOutcome(params, hash, first.cache, all, first.bad, rounds, f);
  }

  /** Names ending in ".params" or ".vk". */
  lemma ParameterNamesDoNotAlias(names: seq<string>)
    requires forall n :: n in names ==> (|n| > 7 && n[|n| - 7..] == ".params") || (|n| > 3 && n[|n| - 3..] == ".vk")
    ensures NoAlias(set n | n in names)
  {
    assert "." + "vk" == ".vk" && "." + "params" == ".params";
    ExtensionsDoNotAlias(set n | n in names);
  }

  /** The whole command, on any list of distinct names ending in ".params" or ".vk": once it has returned,
      every ".params" file of a requested size is there with its digest, or, when no sizes are requested,
      every file; what was there with its digest has not been touched; and neither has a file that was not
      asked for. */
  lemma DownloadIsCorrect(params: Params, hash: Bytes -> string, cache: Cache, names: seq<string>, sizes: Option<seq<int>>,
                          unreadable: set<string>, rounds: seq<Round>, f: string)
    requires AllKnown(params, names) && Distinct(names)
    requires forall n :: n in names ==> (|n| > 7 && n[|n| - 7..] == ".params") || (|n| > 3 && n[|n| - 3..] == ".vk")
    requires f in names
    ensures var after := Fetch(params, hash, cache, Retained(params, sizes, names), unreadable, rounds);
            var requested := sizes.None? || (f[|f| - 3..] != ".vk" && params[f].sectorSize in sizes.value);
            && (after.bad == [] && requested ==> f in after.cache && hash(after.cache[f]) == params[f].digest)
            && (!requested || (f in cache && f !in unreadable && hash(cache[f]) == params[f].digest) ==>
                  (f in cache <==> f in after.cache) && (f in cache ==> after.cache[f] == cache[f]))
  {
    var all := set n | n in names;
    var kept := Retained(params, sizes, names);
    ParameterNamesDoNotAlias(names);
    RetainedIsDistinct(params, sizes, names);
    RetainedIff(params, sizes, names);
    hide HasExtension, Wanted, Retained, Fetch, NoAlias;
    if f in kept {
      FetchIsCorrect(params, hash, cache, kept, all, unreadable, rounds, f);
    } else {
      FetchSparesOthers(params, hash, cache, kept, all, unreadable, rounds, f);
    }
  }

  /** The download of the file is right in this round, and can be read. */
  predicate Delivers(params: Params, hash: Bytes -> string, round: Round, f: string) {
    f in params && f in round.got && hash(round.got[f]) == params[f].digest && f !in round.unreadable
  }

  lemma {:induction false} DeliveredIsDropped(params: Params, hash: Bytes -> string, cache: Cache, all: set<string>,
                                              names: seq<string>, rounds: seq<Round>, f: string, i: nat)
    requires NoAlias(all) && Listed(names, all) && f in all
    requires i < |rounds| && Delivers(params, hash, rounds[i], f)
    ensures f !in Repair(params, hash, cache, names, rounds).bad
    decreases |rounds|
  {
    if names != [] {
      var next := OneRound(params, hash, cache, names, rounds[0]);
      RoundListed(params, hash, cache, all, names, rounds[0]);
      if i == 0 {
        DownloadedAt(cache, names, rounds[0].got, f);
        CheckOutcome(params, hash, Downloaded(cache, names, rounds[0].got), rounds[0].unreadable, all, names, f);
        RepairOutcome(params, hash, next.cache, all, next.bad, rounds[1..], f);
      } else {
        DeliveredIsDropped(params, hash, next.cache, all, next.bad, rounds[1..], f, i - 1);
      }
    }
  }

  /** Progress: if every listed file is delivered right in one of the rounds, in whatever round, the
      loop has returned after these rounds. */
  lemma FetchTerminates(params: Params, hash: Bytes -> string, cache: Cache, all: set<string>, names: seq<string>, rounds: seq<Round>)
    requires NoAlias(all) && Listed(names, all)
    requires forall f :: f in names ==> exists i :: 0 <= i < |rounds| && Delivers(params, hash, rounds[i], f)
    ensures Repair(params, hash, cache, names, rounds).bad == []
  {
    var bad := Repair(params, hash, cache, names, rounds).bad;
    if bad != [] {
      var f := bad[0];
      assert f in bad;
      if f in all {
        RepairOutcome(params, hash, cache, all, names, rounds, f);
        var i :| 0 <= i < |rounds| && Delivers(params, hash, rounds[i], f);
        DeliveredIsDropped(params, hash, cache, all, names, rounds, f, i);
      } else {
        RepairListsNames(params, hash, cache, names, rounds);
      }
    }
  }

  lemma {:induction false} RepairListsNames(params: Params, hash: Bytes -> string, cache: Cache, names: seq<string>, rounds: seq<Round>)
    ensures forall n :: n in Repair(params, hash, cache, names, rounds).bad ==> n in names
    decreases |rounds|
  {
    if names != [] && rounds != [] {
      var next := OneRound(params, hash, cache, names, rounds[0]);
      CheckListsNames(params, hash, Downloaded(cache, names, rounds[0].got), rounds[0].unreadable, names);
      RepairListsNames(params, hash, next.cache, next.bad, rounds[1..]);
    }
  }

  /** Without the condition on names the loop can return with a wrong file: a bad download of `m` is
      renamed over a verified file, which is no longer listed. */
  lemma AliasBreaksFetch(params: Params, hash: Bytes -> string, m: string, good: Bytes, wrong: Bytes, verified: Bytes)
    requires m in params && m + INVALID_SUFFIX in params
    requires hash(good) == params[m].digest && hash(wrong) != params[m].digest
    requires hash(verified) == params[m + INVALID_SUFFIX].digest && hash(wrong) != params[m + INVALID_SUFFIX].digest
    ensures var n := m + INVALID_SUFFIX;
            var after := Fetch(params, hash, map[n := verified], [m, n], {}, [Round(map[m := wrong], {}), Round(map[m := good], {})]);
            after.bad == [] && Good(params, hash, map[n := verified], n) && !Good(params, hash, after.cache, n)
  {
    var n := m + INVALID_SUFFIX;
    var c0: Cache := map[n := verified];
    var r1, r2 := Round(map[m := wrong], {}), Round(map[m := good], {});
    assert Check(params, hash, c0, {}, [m, n]) == Checked(c0, [m]) by {
      assert [m, n][1..] == [n] && [n][1..] == [];
      assert Check(params, hash, c0, {}, [n]) == Checked(c0, []);
    }
    var c1 := c0[m := wrong];
    var c2 := (c1 - {m})[n := wrong];
    var c3 := c2[m := good];
    OneFileRound(params, hash, c0, m, r1);
    OneFileRound(params, hash, c2, m, r2);
    assert OneRound(params, hash, c0, [m], r1) == Checked(c2, [m]);
    assert OneRound(params, hash, c2, [m], r2) == Checked(c3, []);
    assert [r1, r2][1..] == [r2];
    assert Repair(params, hash, c2, [m], [r2]) == Repair(params, hash, c3, [], [r2][1..]);
    assert Repair(params, hash, c0, [m], [r1, r2]) == Repair(params, hash, c2, [m], [r2]);
  }

  /** A round that lists one file and downloads it. */
  lemma OneFileRound(params: Params, hash: Bytes -> string, cache: Cache, m: string, round: Round)
    requires m in round.got && round.unreadable == {}
    ensures var fetched := cache[m := round.got[m]];
            OneRound(params, hash, cache, [m], round)
            == Checked(CheckOne(params, hash, fetched, {}, m), if Good(params, hash, fetched, m) then [] else [m])
  {
    var one := [m];
    assert one[1..] == [];
    assert Downloaded(cache, one, round.got) == Downloaded(cache[m := round.got[m]], [], round.got);
    var fetched := cache[m := round.got[m]];
    assert Check(params, hash, CheckOne(params, hash, fetched, {}, m), {}, []) == Checked(CheckOne(params, hash, fetched, {}, m), []);
  }

  /** What a fetch of the kept files promises: once it has returned they are all right. */
  ghost predicate FetchesRight(params: Params, hash: Bytes -> string, cache: Cache, kept: seq<string>,
                               unreadable: set<string>, rounds: seq<Round>) {
    var after := Fetch(params, hash, cache, kept, unreadable, rounds);
    after.bad == [] ==> forall f :: f in kept ==> Good(params, hash, after.cache, f)
  }

  ghost predicate AlwaysFetchesRight(all: set<string>) {
    forall params, hash, cache, kept, unreadable, rounds :: Listed(kept, all) ==>
      FetchesRight(params, hash, cache, kept, unreadable, rounds)
  }

  /** A hash under which three contents differ. */
  function ToyHash(content: Bytes): string {
    if content == [0] then "0" else if content == [1] then "1" else "2"
  }

  /** The condition on names is exact for the whole loop: whatever is cached, expected, downloaded and
      unreadable, a fetch that has returned has got all its files right, if and only if no name is the
      renamed form of another. */
  lemma AlwaysFetchesRightIff(all: set<string>)
    ensures AlwaysFetchesRight(all) <==> NoAlias(all)
  {
    if NoAlias(all) {
      forall params, hash, cache, kept, unreadable, rounds | Listed(kept, all)
        ensures FetchesRight(params, hash, cache, kept, unreadable, rounds)
      {
        forall f | f in kept
          ensures var after := Fetch(params, hash, cache, kept, unreadable, rounds);
                  after.bad == [] ==> Good(params, hash, after.cache, f)
        {
          FetchIsCorrect(params, hash, cache, kept, all, unreadable, rounds, f);
        }
      }
    } else {
      var m, n :| m in all && n in all && n == m + INVALID_SUFFIX;
      var params := map[m := Param("", "0", 0), n := Param("", "2", 0)];
      var rounds := [Round(map[m := [1]], {}), Round(map[m := [0]], {})];
      assert |n| > |m|;
      AliasBreaksFetch(params, ToyHash, m, [0], [1], [2]);
      assert n in [m, n] && Listed([m, n], all);
      assert !FetchesRight(params, ToyHash, map[n := [2]], [m, n], {}, rounds);
    }
  }
}
