/** Ring resolution for installs that can only be told about a release (electron/updateFeed.ts). */
module UpdateFeed {
  import opened Basics
  import LocalAccess

  datatype Channel = Stable | Preview

  // --- Versions ----------------------------------------------------------------------

  predicate IsNumber(s: string) {
    s != "" && forall i :: 0 <= i < |s| ==> '0' <= s[i] <= '9'
  }

  function SplitDots(s: string): (parts: seq<string>)
    ensures parts != []
  {
    if s == "" then [""]
    else
      var rest := SplitDots(s[1..]);
      if s[0] == '.' then [""] + rest else [[s[0]] + rest[0]] + rest[1..]
  }

  /** Exactly three numeric components. */
  predicate IsVersion(s: string) {
    var parts := SplitDots(s);
    |parts| == 3 && IsNumber(parts[0]) && IsNumber(parts[1]) && IsNumber(parts[2])
  }

  function ToNumber(s: string): nat
    requires forall i :: 0 <= i < |s| ==> '0' <= s[i] <= '9'
  {
    if s == "" then 0 else ToNumber(s[..|s| - 1]) * 10 + (s[|s| - 1] - '0') as nat
  }

  function Component(version: string, i: nat): nat
    requires IsVersion(version) && i < 3
  {
    ToNumber(SplitDots(version)[i])
  }

  /** Compared from component `i` on: the first difference, or nothing. */
  function CompareFrom(a: string, b: string, i: nat): int
    requires IsVersion(a) && IsVersion(b) && i <= 3
    decreases 3 - i
  {
    if i == 3 then 0
    else
      var diff := Component(a, i) - Component(b, i);
      if diff != 0 then diff else CompareFrom(a, b, i + 1)
  }

  function Compare(a: string, b: string): int
    requires IsVersion(a) && IsVersion(b)
  {
    CompareFrom(a, b, 0)
  }

  /** The source's loop with its early return. Both callers pass versions of the strict shape. */
  method CompareVersions(a: string, b: string) returns (diff: int)
    requires IsVersion(a) && IsVersion(b)
    ensures diff == Compare(a, b)
  {
    var pa, pb := SplitDots(a), SplitDots(b);
    for i := 0 to 3
      invariant Compare(a, b) == CompareFrom(a, b, i)
    {
      diff := ToNumber(pa[i]) - ToNumber(pb[i]);
      if diff != 0 {
        return;
      }
    }
    diff := 0;
  }

  /** Equal only when every component is. */
  lemma CompareIsZeroWhenEqual(a: string, b: string)
    requires IsVersion(a) && IsVersion(b)
    ensures Compare(a, b) == 0 <==> forall i :: 0 <= i < 3 ==> Component(a, i) == Component(b, i)
  {
    assert Compare(a, b) == 0 ==> CompareFrom(a, b, 1) == 0 && CompareFrom(a, b, 2) == 0;
    assert CompareFrom(a, b, 3) == 0;
  }

  /** The order is by value, component by component, and so total and transitive: 1.0.10 is newer than
      1.0.9 whatever their spelling. */
  lemma CompareIsLexicographic(a: string, b: string)
    requires IsVersion(a) && IsVersion(b)
    ensures Compare(a, b) > 0 <==>
      || Component(a, 0) > Component(b, 0)
      || (Component(a, 0) == Component(b, 0) && Component(a, 1) > Component(b, 1))
      || (Component(a, 0) == Component(b, 0) && Component(a, 1) == Component(b, 1) && Component(a, 2) > Component(b, 2))
    ensures Compare(a, b) < 0 <==> Compare(b, a) > 0
  {
    Unrolled(a, b);
    Unrolled(b, a);
  }

  lemma Unrolled(a: string, b: string)
    requires IsVersion(a) && IsVersion(b)
    ensures var d0, d1, d2 := Component(a, 0) - Component(b, 0), Component(a, 1) - Component(b, 1),
        Component(a, 2) - Component(b, 2);
            Compare(a, b) == if d0 != 0 then d0 else if d1 != 0 then d1 else d2
  {
    assert CompareFrom(a, b, 3) == 0;
    assert CompareFrom(a, b, 2) == Component(a, 2) - Component(b, 2);
  }

  lemma CompareTransitive(a: string, b: string, c: string)
    requires IsVersion(a) && IsVersion(b) && IsVersion(c)
    requires Compare(a, b) <= 0 && Compare(b, c) <= 0
    ensures Compare(a, c) <= 0
    ensures Compare(a, b) < 0 || Compare(b, c) < 0 ==> Compare(a, c) < 0
  {
    hide Component;
    Unrolled(a, b);
    Unrolled(b, c);
    Unrolled(a, c);
  }

  // --- Releases ----------------------------------------------------------------------

  /** One entry of the API's list; `isReleasePage` is whether its URL is a release page of this repository. */
  datatype Release = Release(tag: Option<string>, draft: bool, prerelease: bool, url: string, isReleasePage: bool)

  datatype Resolved = Resolved(version: string, tag: string, url: string, prerelease: bool)

  const TAG_PREFIX := "phantomchat-v"

  function VersionFromTag(tag: Option<string>): (v: Option<string>)
    ensures v.Some? ==> IsVersion(v.value) && tag == Some(TAG_PREFIX + v.value)
  {
    if tag.None? || !StartsWith(tag.value, TAG_PREFIX) then None
    else
      var version := tag.value[|TAG_PREFIX|..];
      assert tag.value == TAG_PREFIX + version;
      if IsVersion(version) then Some(version) else None
  }

  /** Published, well named, on a page that may be opened, and in the ring. */
  predicate InRing(r: Release, channel: Channel) {
    !r.draft && VersionFromTag(r.tag).Some? && !(channel == Stable && r.prerelease) && r.isReleasePage
  }

  function Resolve(r: Release): Resolved
    requires VersionFromTag(r.tag).Some?
  {
    Resolved(VersionFromTag(r.tag).value, r.tag.value, r.url, r.prerelease)
  }

  /** `best` is release `i`: in the ring, newer than every earlier ring release and not older than any. */
  ghost predicate IsPick(releases: seq<Release>, channel: Channel, i: nat, best: Resolved) {
    && i < |releases| && InRing(releases[i], channel) && best == Resolve(releases[i])
    && (forall j :: 0 <= j < |releases| && InRing(releases[j], channel) ==>
          Compare(Resolve(releases[j]).version, best.version) <= 0)
    && (forall j :: 0 <= j < i && InRing(releases[j], channel) ==>
          Compare(Resolve(releases[j]).version, best.version) < 0)
  }

  ghost predicate Picks(releases: seq<Release>, channel: Channel, best: Option<Resolved>) {
    match best
    case None => forall j :: 0 <= j < |releases| ==> !InRing(releases[j], channel)
    case Some(b) => exists i: nat :: IsPick(releases, channel, i, b)
  }

  /** The newest release of the ring by version; of equal versions, the one listed first. */
  method PickReleaseForChannel(releases: seq<Release>, channel: Channel) returns (best: Option<Resolved>)
    ensures Picks(releases, channel, best)
  {
    best := None;
    ghost var at: nat := 0;
    for k := 0 to |releases|
      invariant best.None? ==> forall j :: 0 <= j < k ==> !InRing(releases[j], channel)
      invariant best.Some? ==> at < k && IsPick(releases[..k], channel, at, best.value)
    {
      var release := releases[k];
      var seen := releases[..k + 1];
      assert seen == releases[..k] + [release];
      if release.draft {
        PickKept(releases[..k], release, channel, at, best);
        continue;
      }
      var version := VersionFromTag(release.tag);
      if version.None? || (channel == Stable && release.prerelease) || !release.isReleasePage {
        PickKept(releases[..k], release, channel, at, best);
        continue;
      }
      var newer := best.None?;
      if best.Some? {
        var diff := CompareVersions(version.value, best.value.version);
        newer := diff > 0;
      }
      if newer {
        PickReplaced(releases[..k], release, channel, at, best);
        best := Some(Resolved(version.value, release.tag.value, release.url, release.prerelease));
        at := k;
      } else {
        PickKept(releases[..k], release, channel, at, best);
      }
    }
    assert releases[..|releases|] == releases;
  }

  /** A release outside the ring, or not newer than the best so far, changes nothing. */
  lemma PickKept(seen: seq<Release>, release: Release, channel: Channel, i: nat, best: Option<Resolved>)
    requires best.Some? ==> IsPick(seen, channel, i, best.value)
    requires InRing(release, channel) ==> best.Some? && Compare(Resolve(release).version, best.value.version) <= 0
    ensures best.Some? ==> IsPick(seen + [release], channel, i, best.value)
  {
    hide Compare, VersionFromTag;
  }

  lemma PickReplaced(seen: seq<Release>, release: Release, channel: Channel, i: nat, best: Option<Resolved>)
    requires best.Some? ==> IsPick(seen, channel, i, best.value)
    requires best.None? ==> forall j :: 0 <= j < |seen| ==> !InRing(seen[j], channel)
    requires InRing(release, channel)
    requires best.Some? ==> Compare(Resolve(release).version, best.value.version) > 0
    ensures IsPick(seen + [release], channel, |seen|, Resolve(release))
  {
    var all, v := seen + [release], Resolve(release).version;
    CompareIsZeroWhenEqual(v, v);
    forall j | 0 <= j < |seen| && InRing(seen[j], channel) ensures Compare(Resolve(seen[j]).version, v) < 0 {
      var w := Resolve(seen[j]).version;
      CompareIsLexicographic(v, best.value.version);
      CompareTransitive(w, best.value.version, v);
    }
  }

  /** Which version is picked does not depend on the order of the list, nor on repeats in it. */
  lemma OrderDoesNotMatter(a: seq<Release>, b: seq<Release>, channel: Channel, fromA: Option<Resolved>,
      fromB: Option<Resolved>)
    requires Picks(a, channel, fromA) && Picks(b, channel, fromB)
    requires forall r :: r in a <==> r in b
    ensures fromA.Some? <==> fromB.Some?
    ensures fromA.Some? ==> IsVersion(fromA.value.version) && IsVersion(fromB.value.version)
                            && Compare(fromA.value.version, fromB.value.version) == 0
  {
    hide Compare, VersionFromTag;
    if fromA.Some? {
      var i: nat :| IsPick(a, channel, i, fromA.value);
      assert a[i] in b;
    }
    if fromB.Some? {
      var k: nat :| IsPick(b, channel, k, fromB.value);
      assert b[k] in a;
      if fromA.Some? {
        var i: nat :| IsPick(a, channel, i, fromA.value);
        CompareIsLexicographic(fromA.value.version, fromB.value.version);
      }
    }
  }

  /** On one list the preview pick is never older than the stable one. */
  lemma PreviewIsNotOlder(releases: seq<Release>, stable: Option<Resolved>, preview: Option<Resolved>)
    requires Picks(releases, Stable, stable) && Picks(releases, Preview, preview) && stable.Some?
    ensures preview.Some? && IsVersion(stable.value.version) && IsVersion(preview.value.version)
    ensures Compare(stable.value.version, preview.value.version) <= 0
  {
    hide Compare, VersionFromTag;
    var i: nat :| IsPick(releases, Stable, i, stable.value);
    assert InRing(releases[i], Preview);
    if preview.Some? {
      var k: nat :| IsPick(releases, Preview, k, preview.value);
    }
  }

  // --- Paging ------------------------------------------------------------------------

  /** The first `n` pages as one list; pages are numbered from one. */
  function Pages(fetch: nat -> seq<Release>, n: nat): seq<Release> {
    if n == 0 then [] else Pages(fetch, n - 1) + fetch(n)
  }

  ghost predicate HasRing(releases: seq<Release>, channel: Channel) {
    exists i :: 0 <= i < |releases| && InRing(releases[i], channel)
  }

  /** Reading stops after page `n`: it was the last allowed, or short, or the ring is represented. */
  ghost predicate StopsAt(channel: Channel, fetch: nat -> seq<Release>, maxPages: nat, perPage: int, n: nat) {
    n == maxPages || (n >= 1 && (|fetch(n)| < perPage || HasRing(Pages(fetch, n), channel)))
  }

  /** The shortest prefix of the pages that may be stopped at is what is collected. */
  method CollectReleasesForChannel(channel: Channel, fetch: nat -> seq<Release>, maxPages: nat, perPage: int)
    returns (collected: seq<Release>, pages: nat)
    ensures pages <= maxPages && collected == Pages(fetch, pages)
    ensures StopsAt(channel, fetch, maxPages, perPage, pages)
    ensures forall m :: 0 <= m < pages ==> !StopsAt(channel, fetch, maxPages, perPage, m)
  {
    collected, pages := [], 0;
    while pages < maxPages
      invariant pages <= maxPages && collected == Pages(fetch, pages)
      invariant forall m :: 0 <= m <= pages && m < maxPages ==> !StopsAt(channel, fetch, maxPages, perPage, m)
    {
      pages := pages + 1;
      var batch := fetch(pages);
      collected := collected + batch;
      if |batch| < perPage {
        return;
      }
      var best := PickReleaseForChannel(collected, channel);
      if best.Some? {
        ghost var i: nat :| IsPick(collected, channel, i, best.value);
        return;
      }
    }
  }

  lemma {:induction false} PagesPrefix(fetch: nat -> seq<Release>, m: nat, n: nat)
    requires m <= n
    ensures |Pages(fetch, m)| <= |Pages(fetch, n)| && Pages(fetch, n)[..|Pages(fetch, m)|] == Pages(fetch, m)
    decreases n
  {
    if m < n {
      PagesPrefix(fetch, m, n - 1);
    }
  }

  /** Nobody is stranded: while pages are full, a ring release on any page within the bound makes the
      pick come out with something, however many pages of the other ring come first. */
  lemma RingIsFound(channel: Channel, fetch: nat -> seq<Release>, maxPages: nat, perPage: int,
                    collected: seq<Release>, pages: nat, best: Option<Resolved>, p: nat)
    requires pages <= maxPages && collected == Pages(fetch, pages)
    requires StopsAt(channel, fetch, maxPages, perPage, pages)
    requires 1 <= p <= maxPages && HasRing(fetch(p), channel)
    requires forall m :: 1 <= m < p ==> |fetch(m)| >= perPage
    requires Picks(collected, channel, best)
    ensures best.Some?
  {
    if p <= pages {
      PagesPrefix(fetch, p, pages);
      var i :| 0 <= i < |fetch(p)| && InRing(fetch(p)[i], channel);
      var at := |Pages(fetch, p - 1)| + i;
      assert Pages(fetch, p)[at] == fetch(p)[i];
      assert collected[at] == fetch(p)[i];
    }
  }

  // --- Telling the user --------------------------------------------------------------

  predicate IsNotifiable(current: string, candidate: Option<Resolved>) {
    candidate.Some? && IsVersion(current) && IsVersion(candidate.value.version)
        && Compare(candidate.value.version, current) > 0
  }

  /** Someone on the preview ring who goes back to stable is never nagged towards an older build, and
      on any list whoever stable would notify, preview would too. */
  lemma PreviewHearsWhatStableHears(releases: seq<Release>, current: string, stable: Option<Resolved>,
      preview: Option<Resolved>)
    requires Picks(releases, Stable, stable) && Picks(releases, Preview, preview)
    requires IsNotifiable(current, stable)
    ensures IsNotifiable(current, preview)
  {
    PreviewIsNotOlder(releases, stable, preview);
    hide Compare;
    CompareIsLexicographic(stable.value.version, current);
    CompareTransitive(current, stable.value.version, preview.value.version);
    CompareIsLexicographic(preview.value.version, current);
  }

  /** A later major, or the same and a later minor, or both the same and a later patch. */
  predicate IsNewer(a: string, b: string)
    requires IsVersion(a) && IsVersion(b)
  {
    || Component(a, 0) > Component(b, 0)
    || (Component(a, 0) == Component(b, 0) && Component(a, 1) > Component(b, 1))
    || (Component(a, 0) == Component(b, 0) && Component(a, 1) == Component(b, 1) && Component(a, 2) > Component(b, 2))
  }

  /** A published release of that version, on a page that may be opened, and no prerelease on the stable ring. */
  predicate Offers(r: Release, channel: Channel, version: string) {
    && IsVersion(version) && r.tag == Some("phantomchat-v" + version)
    && !r.draft && r.isReleasePage && (channel == Stable ==> !r.prerelease)
  }

  lemma OffersIsInRing(r: Release, channel: Channel, version: string)
    ensures Offers(r, channel, version) <==> InRing(r, channel) && Resolve(r).version == version
  {
    hide IsVersion;
    if r.tag == Some("phantomchat-v" + version) {
      assert ("phantomchat-v" + version)[|TAG_PREFIX|..] == version;
    }
  }

  /** The user is told exactly if the ring has a release strictly newer than the running version, in numbers:
      never of the running version itself and never of an older one. What is told of is one of the ring's
      releases, and none of them is newer. */
  lemma ToldExactlyWhenNewer(releases: seq<Release>, channel: Channel, picked: Option<Resolved>, current: string)
    requires Picks(releases, channel, picked)
    ensures IsNotifiable(current, picked) <==>
            IsVersion(current)
            && exists j, v :: 0 <= j < |releases| && Offers(releases[j], channel, v) && IsNewer(v, current)
    ensures IsNotifiable(current, picked) ==>
            && picked.value.version != current && IsNewer(picked.value.version, current)
            && (exists j :: 0 <= j < |releases| && Offers(releases[j], channel, picked.value.version)
                  && releases[j].tag == Some(picked.value.tag) && releases[j].url == picked.value.url)
            && (forall j, v :: 0 <= j < |releases| && Offers(releases[j], channel, v) ==>
                  !IsNewer(v, picked.value.version))
  {
    if picked.Some? {
      PickIsNewest(releases, channel, picked.value);
    }
    hide Compare, VersionFromTag, IsVersion, Component;
    forall j, v | 0 <= j < |releases| && Offers(releases[j], channel, v)
      ensures InRing(releases[j], channel) && Resolve(releases[j]).version == v
    {
      OffersIsInRing(releases[j], channel, v);
    }
    if picked.Some? && IsVersion(current) {
      NewerMeans(picked.value.version, current);
      forall j, v | 0 <= j < |releases| && Offers(releases[j], channel, v) && IsNewer(v, current)
        ensures IsNewer(picked.value.version, current)
      {
        NewerMeans(v, current);
        NewerMeans(v, picked.value.version);
        CompareIsLexicographic(v, current);
        CompareIsLexicographic(picked.value.version, current);
        CompareTransitive(current, v, picked.value.version);
      }
    }
  }

  lemma PickIsNewest(releases: seq<Release>, channel: Channel, best: Resolved)
    requires Picks(releases, channel, Some(best))
    ensures IsVersion(best.version)
    ensures exists j :: 0 <= j < |releases| && Offers(releases[j], channel, best.version)
              && releases[j].tag == Some(best.tag) && releases[j].url == best.url
    ensures forall j, v :: 0 <= j < |releases| && Offers(releases[j], channel, v) ==> !IsNewer(v, best.version)
  {
    var i: nat :| IsPick(releases, channel, i, best);
    OffersIsInRing(releases[i], channel, best.version);
    hide Compare, VersionFromTag, IsVersion, Component;
    forall j, v | 0 <= j < |releases| && Offers(releases[j], channel, v) ensures !IsNewer(v, best.version) {
      OffersIsInRing(releases[j], channel, v);
      NewerMeans(v, best.version);
    }
  }

  lemma NewerMeans(a: string, b: string)
    requires IsVersion(a) && IsVersion(b)
    ensures IsNewer(a, b) <==> Compare(a, b) > 0
    ensures !IsNewer(a, a)
  {
    CompareIsLexicographic(a, b);
  }

  // --- Versions in numbers -----------------------------------------------------------

  function Spelled(major: nat, minor: nat, patch: nat): string {
    LocalAccess.Decimal(major) + "." + (LocalAccess.Decimal(minor) + "." + LocalAccess.Decimal(patch))
  }

  lemma {:induction false} SplitsAtDot(head: string, rest: string)
    requires '.' !in head
    ensures SplitDots(head + "." + rest) == [head] + SplitDots(rest)
    ensures SplitDots(head) == [head]
  {
    if head == "" {
      assert "" + "." + rest == "." + rest && ("." + rest)[1..] == rest;
      assert [""] + SplitDots(rest) == [head] + SplitDots(rest);
    } else {
      SplitsAtDot(head[1..], rest);
      var s := head + "." + rest;
      assert s[1..] == head[1..] + "." + rest && s[0] == head[0];
      assert [head[0]] + head[1..] == head;
      assert ([head[1..]] + SplitDots(rest))[1..] == SplitDots(rest);
    }
  }

  lemma {:induction false} DecimalReads(n: nat)
    ensures IsNumber(LocalAccess.Decimal(n)) && ToNumber(LocalAccess.Decimal(n)) == n
  {
    var d := LocalAccess.Decimal(n);
    if n >= 10 {
      DecimalReads(n / 10);
      assert d[..|d| - 1] == LocalAccess.Decimal(n / 10);
    } else {
      assert d[..|d| - 1] == "" && d[0] - '0' == n as char;
    }
  }

  /** Versions compare as their three numbers do, however many digits each has. */
  lemma SpelledVersionsCompare(a: (nat, nat, nat), b: (nat, nat, nat))
    ensures var v, w := Spelled(a.0, a.1, a.2), Spelled(b.0, b.1, b.2);
            && IsVersion(v) && IsVersion(w)
            && (IsNewer(v, w) <==> a.0 > b.0 || (a.0 == b.0 && (a.1 > b.1 || (a.1 == b.1 && a.2 > b.2))))
  {
    SpelledReads(a.0, a.1, a.2);
    SpelledReads(b.0, b.1, b.2);
    hide IsVersion, Spelled, Component;
  }

  lemma SpelledReads(major: nat, minor: nat, patch: nat)
    ensures var v := Spelled(major, minor, patch);
            IsVersion(v) && Component(v, 0) == major && Component(v, 1) == minor && Component(v, 2) == patch
  {
    DecimalReads(major);
    DecimalReads(minor);
    DecimalReads(patch);
    var x, y, z := LocalAccess.Decimal(major), LocalAccess.Decimal(minor), LocalAccess.Decimal(patch);
    hide LocalAccess.Decimal, ToNumber;
    SplitsAtDot(x, y + "." + z);
    SplitsAtDot(y, z);
    SplitsAtDot(z, "");
    hide SplitDots;
    assert SplitDots(Spelled(major, minor, patch)) == [x] + ([y] + [z]);
  }
}
