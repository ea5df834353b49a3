/** Image references and digest pinning (`src/provisioning/env_provision.rs`). */
module ImagePins {
  import opened Results

  /** `s.split(c).next()`: what comes before the first c. */
  function Before(s: string, c: char): string {
    if s == "" || s[0] == c then "" else [s[0]] + Before(s[1..], c)
  }

  /** `split_once('/')`: what comes after the first slash, or the whole string if it has none. */
  function AfterSlash(s: string): string {
    if '/' in s then (if s[0] == '/' then s[1..] else AfterSlash(s[1..])) else s
  }

  /** The repository of an image reference: no host, no tag, no digest. */
  function RepoOf(image: string): Option<string> {
    var rest := Before(Before(AfterSlash(image), '@'), ':');
    if rest == "" then None else Some(rest)
  }

  function PinnedRef(registry: string, name: string, digest: string): string {
    registry + "/" + name + "@" + digest
  }

  function TaggedRef(registry: string, name: string, tag: string): string {
    registry + "/" + name + ":" + tag
  }

  // ----- When a pinned reference names the repository it was made for -----

  predicate IsStop(c: char) { c == '@' || c == ':' }

  predicate Clean(s: string) { forall c :: c in s ==> !IsStop(c) }

  /** What comes before the first `@` or `:`. */
  function Cut(s: string): string {
    if s == "" || IsStop(s[0]) then "" else [s[0]] + Cut(s[1..])
  }

  lemma {:induction false} CutIsBeforeBoth(s: string)
    ensures Before(Before(s, '@'), ':') == Cut(s)
  {
    if s != "" {
      CutIsBeforeBoth(s[1..]);
      if s[0] != '@' {
        assert Before(s, '@')[1..] == Before(s[1..], '@');
      }
    }
  }

  lemma {:induction false} CutClean(s: string)
    ensures Clean(Cut(s)) && |Cut(s)| <= |s|
  {
    if s != "" {
      CutClean(s[1..]);
    }
  }

  lemma {:induction false} CutAppend(s: string, t: string)
    ensures Cut(s + t) == if Clean(s) then s + Cut(t) else Cut(s)
  {
    if s == "" {
      assert s + t == t;
    } else {
      CutAppend(s[1..], t);
      CleanCons(s);
      assert (s + t)[1..] == s[1..] + t;
      assert [s[0]] + (s[1..] + Cut(t)) == s + Cut(t);
    }
  }

  lemma CleanCons(s: string)
    requires s != ""
    ensures Clean(s) <==> !IsStop(s[0]) && Clean(s[1..])
  {
    assert s == [s[0]] + s[1..];
  }

  lemma {:induction false} AfterSlashAppend(s: string, t: string)
    ensures '/' in s ==> AfterSlash(s + t) == AfterSlash(s) + t
    ensures '/' !in s ==> AfterSlash(s + "/" + t) == t
  {
    if s == "" {
      assert s + "/" + t == "/" + t;
      assert ("/" + t)[0] == '/';
    } else {
      AfterSlashAppend(s[1..], t);
      assert s == [s[0]] + s[1..];
      assert (s + t)[1..] == s[1..] + t;
      assert (s + "/" + t)[1..] == s[1..] + "/" + t;
      assert (s + "/" + t)[|s|] == '/';
      if s[0] != '/' && '/' in s {
        assert '/' in s[1..];
      }
    }
  }

  /** A name before its digest or tag is cut to the name's own clean part. */
  lemma CutName(name: string, stop: char, rest: string)
    requires IsStop(stop)
    ensures Cut(name + ([stop] + rest)) == Cut(name)
    ensures Cut(name) == name <==> Clean(name)
  {
    CutAppend(name, [stop] + rest);
    CutAppend(name, "");
    CutClean(name);
    assert name + "" == name;
  }

  /** What is left of a reference after the host and the first `@` or `:`. */
  lemma RefCut(registry: string, tail: string)
    ensures Cut(AfterSlash(registry + "/" + tail)) ==
            if '/' !in registry then Cut(tail)
            else if Clean(AfterSlash(registry)) then AfterSlash(registry) + "/" + Cut(tail)
            else Cut(AfterSlash(registry))
  {
    if '/' in registry {
      assert registry + "/" + tail == registry + ("/" + tail);
      AfterSlashAppend(registry, "/" + tail);
      CutAppend(AfterSlash(registry), "/" + tail);
      CutAppend("/", tail);
      assert AfterSlash(registry) + ("/" + Cut(tail)) == AfterSlash(registry) + "/" + Cut(tail);
    } else {
      AfterSlashAppend(registry, tail);
    }
  }

  /** A registry path that is itself cut short, at exactly the repository's name. */
  predicate StopsAt(registry: string, name: string) {
    '/' in registry && !Clean(AfterSlash(registry)) && Cut(AfterSlash(registry)) == name
  }

  /** The name is non-empty and has no `@` or `:`, and the registry is a bare host (or stops, by accident,
      at that very name). */
  predicate NamesItself(registry: string, name: string) {
    name != "" && Clean(name) && ('/' !in registry || StopsAt(registry, name))
  }

  /** The two ways of writing what is left that give the name. */
  lemma CutsToName(registry: string, name: string)
    ensures var host := AfterSlash(registry);
            var rest := if '/' !in registry then Cut(name)
                        else if Clean(host) then host + "/" + Cut(name) else Cut(host);
            (rest != "" && rest == name) <==> NamesItself(registry, name)
  {
    var host := AfterSlash(registry);
    CutClean(name);
    CutClean(host);
    CutName(name, '@', "");
    if Clean(host) {
      assert |host + "/" + Cut(name)| > |Cut(name)|;
      assert Clean(host + "/" + Cut(name));
    }
  }

  lemma RefRepo(registry: string, name: string, stop: char, rest: string)
    requires IsStop(stop)
    ensures RepoOf(registry + "/" + (name + ([stop] + rest))) == Some(name) <==> NamesItself(registry, name)
  {
    var tail := name + ([stop] + rest);
    CutIsBeforeBoth(AfterSlash(registry + "/" + tail));
    RefCut(registry, tail);
    CutName(name, stop, rest);
    CutsToName(registry, name);
  }

  /** A pinned reference is recognised as its own repository exactly when the name is non-empty and has
      no `@` or `:`, and the registry is a bare host (or stops, by accident, at that very name). */
  lemma PinnedRefRepo(registry: string, name: string, digest: string)
    ensures RepoOf(PinnedRef(registry, name, digest)) == Some(name) <==>
            name != "" && Clean(name) && ('/' !in registry || StopsAt(registry, name))
  {
    RefRepo(registry, name, '@', digest);
    assert PinnedRef(registry, name, digest) == registry + "/" + (name + ("@" + digest));
  }

  /** And so is a reference by tag: a service still on a tag is found by the next deploy of its repository. */
  lemma TaggedRefRepo(registry: string, name: string, tag: string)
    ensures RepoOf(TaggedRef(registry, name, tag)) == Some(name) <==> NamesItself(registry, name)
  {
    RefRepo(registry, name, ':', tag);
    assert TaggedRef(registry, name, tag) == registry + "/" + (name + (":" + tag));
  }

  // ----- Repinning containers -----

  /** A container definition. `kept` stands for the settings the clone copies, `unlisted` for those the
      task definition may carry but the clone does not copy. */
  datatype Container = Container(name: string, image: Option<string>, kept: string, unlisted: string)

  type Pins = map<string, string>

  function PinFor(image: Option<string>, pins: Pins): Option<string> {
    if image.None? then None else
    var repo := RepoOf(image.value);
    if repo.Some? && repo.value in pins then Some(pins[repo.value]) else None
  }

  function PinnedImage(image: Option<string>, pins: Pins): Option<string> {
    var pin := PinFor(image, pins);
    if pin.Some? then pin else image
  }

  function Images(cs: seq<Container>): seq<Option<string>> {
    seq(|cs|, i requires 0 <= i < |cs| => cs[i].image)
  }

  /** The images a list of containers runs once repinned. */
  function PinnedImages(cs: seq<Container>, pins: Pins): seq<Option<string>> {
    seq(|cs|, i requires 0 <= i < |cs| => PinnedImage(cs[i].image, pins))
  }

  ghost predicate ClonedWithPins(cs: seq<Container>, pins: Pins, out: seq<Container>) {
    && |out| == |cs|
    && forall i :: 0 <= i < |cs| ==> out[i] == Container(cs[i].name, PinnedImage(cs[i].image, pins), cs[i].kept, "")
  }

  function Clone(cs: seq<Container>, pins: Pins): (out: seq<Container>)
    ensures ClonedWithPins(cs, pins, out) && Images(out) == PinnedImages(cs, pins)
  {
    seq(|cs|, i requires 0 <= i < |cs| => Container(cs[i].name, PinnedImage(cs[i].image, pins), cs[i].kept, ""))
  }

  /** The loop that rebuilds the container list. */
  method CloneContainersWithImagePins(cs: seq<Container>, pins: Pins) returns (out: seq<Container>)
    ensures ClonedWithPins(cs, pins, out) && out == Clone(cs, pins)
  {
    out := [];
    for i := 0 to |cs|
      invariant |out| == i
      invariant forall j :: 0 <= j < i ==>
        out[j] == Container(cs[j].name, PinnedImage(cs[j].image, pins), cs[j].kept, "")
    {
      var c := cs[i];
      var pinned := PinFor(c.image, pins);
      var finalImage := if pinned.Some? then pinned else c.image;
      out := out + [Container(c.name, finalImage, c.kept, "")];
    }
  }

  /** The pins the containers match, in container order. */
  function Matched(cs: seq<Container>, pins: Pins): seq<string> {
    if cs == [] then []
    else (var pin := PinFor(cs[0].image, pins); if pin.Some? then [pin.value] else []) + Matched(cs[1..], pins)
  }

  /** Pinning changes an image only where a pin matches, so a roll always has a matched pin. */
  lemma {:induction false} ChangedIsMatched(cs: seq<Container>, pins: Pins)
    requires PinnedImages(cs, pins) != Images(cs)
    ensures Matched(cs, pins) != []
  {
    if PinFor(cs[0].image, pins).None? {
      var tail := cs[1..];
      if PinnedImages(tail, pins) == Images(tail) {
        forall i | 0 <= i < |cs| ensures PinnedImages(cs, pins)[i] == Images(cs)[i] {
          if i > 0 {
            assert PinnedImages(tail, pins)[i - 1] == Images(tail)[i - 1];
          }
        }
      }
      ChangedIsMatched(tail, pins);
    }
  }

  /** Every pin is recognised as a pin for its own repository. */
  ghost predicate SelfNaming(pins: Pins) {
    forall repo :: repo in pins ==> RepoOf(pins[repo]) == Some(repo)
  }

  /** Pinning again with the same pins changes nothing: the second deploy of the same digests is a no-op. */
  lemma PinTwice(cs: seq<Container>, pins: Pins)
    requires SelfNaming(pins)
    ensures PinnedImages(Clone(cs, pins), pins) == Images(Clone(cs, pins))
  {
    var out := Clone(cs, pins);
    forall i | 0 <= i < |out| ensures PinnedImage(out[i].image, pins) == out[i].image {
    }
  }

  /** What the containers run afterwards: the pin where the repository was built, what they ran before
      everywhere else. */
  lemma CloneRuns(cs: seq<Container>, pins: Pins, i: nat)
    requires i < |cs|
    ensures var repo := if cs[i].image.Some? then RepoOf(cs[i].image.value) else None;
      Clone(cs, pins)[i].image == if repo.Some? && repo.value in pins then Some(pins[repo.value]) else cs[i].image
    ensures Clone(cs, pins)[i].name == cs[i].name && Clone(cs, pins)[i].kept == cs[i].kept
  {
  }
}
