/** `getTestInfo` and `readConfig`: the sub-tests of a problem and its configuration,
    created with fixed defaults the first time the problem is seen. */
module TestInfo {
  import opened Json
  import opened Strings

  /** The contents of a problem's config.cfg, as key/value pairs. */
  type Config = map<string, Value>

  /** The configuration written for a problem that has none. */
  const DefaultConfig: Config := map[
    "checker" := Null,
    "point_per_test" := Num(1),
    "icpc" := Bool(false),
    "time_limit" := Num(1000),
    "memory_limit" := Num(256),
    "input_file" := Bool(false),
    "output_file" := Bool(false),
    "selected" := Bool(true)
  ]

  /** What `getTestInfo` returns: the sub-test names and the configuration. */
  datatype Info = Info(list: seq<string>, config: Config)

  /** An entry of a problem directory is a sub-test when its lower-cased name starts
      with "test". */
  predicate IsSubtest(entry: string)
  {
    StartsWith(Lower(entry), "test")
  }

  /** The sub-tests of a directory listing, in listing order. */
  function Subtests(entries: seq<string>): (list: seq<string>)
    ensures |list| <= |entries|
    ensures forall t :: t in list <==> t in entries && IsSubtest(t)
  {
    if entries == [] then []
    else
      assert forall t :: t in entries <==> t == entries[0] || t in entries[1..];
      (if IsSubtest(entries[0]) then [entries[0]] else []) + Subtests(entries[1..])
  }

  /** Filtering distributes over concatenation: the sub-tests of a listing keep the
      listing's order. */
  lemma {:induction false} SubtestsAppend(a: seq<string>, b: seq<string>)
    ensures Subtests(a + b) == Subtests(a) + Subtests(b)
  {
    if a == [] {
      assert a + b == b;
    } else {
      assert (a + b)[1..] == a[1..] + b;
      SubtestsAppend(a[1..], b);
    }
  }

  /** A listing with no sub-test entry yields an empty list. */
  lemma {:induction false} SubtestsOfNone(entries: seq<string>)
    requires forall i :: 0 <= i < |entries| ==> !IsSubtest(entries[i])
    ensures Subtests(entries) == []
  {
    if entries != [] {
      SubtestsOfNone(entries[1..]);
    }
  }

  /** The config.cfg file that `getTestInfo` writes into a problem directory is not a
      sub-test, wherever the listing puts it. */
  lemma {:induction false} SubtestsSkipConfigFile(before: seq<string>, after: seq<string>)
    ensures Subtests(before + ["config.cfg"] + after) == Subtests(before + after)
  {
    assert Lower("config.cfg")[0] == 'c';
    SubtestsAppend(before + ["config.cfg"], after);
    SubtestsAppend(before, ["config.cfg"]);
    SubtestsAppend(before, after);
    assert Subtests(["config.cfg"]) == [] + Subtests([]);
  }

  /** The push loop of `getTestInfo`. */
  method CollectSubtests(entries: seq<string>) returns (list: seq<string>)
    ensures list == Subtests(entries)
  {
    list := [];
    for i := 0 to |entries|
      invariant list == Subtests(entries[..i])
    {
      SubtestsAppend(entries[..i], [entries[i]]);
      assert entries[..i + 1] == entries[..i] + [entries[i]];
      if StartsWith(Lower(entries[i]), "test") {
        list := list + [entries[i]];
      }
    }
    assert entries[..|entries|] == entries;
  }

  /** `readConfig`: the stored configuration, or an empty one when the file is absent. */
  function ReadConfig(files: map<string, Config>, test: string): (c: Config)
    ensures test !in files ==> c == map[]
    ensures test in files ==> c == files[test]
  {
    if test in files then files[test] else map[]
  }

  /** The create-if-absent step of `getTestInfo`, on the map from problem to config.cfg. */
  function WithDefaultConfig(files: map<string, Config>, test: string): (r: map<string, Config>)
    ensures r.Keys == files.Keys + {test}
    ensures test in files ==> r == files
    ensures test !in files ==> r[test] == DefaultConfig
    ensures forall t :: t in files ==> r[t] == files[t]
  {
    if test in files then files else files[test := DefaultConfig]
  }

  /** Get-or-create is idempotent: a second resolution writes nothing. */
  lemma WithDefaultConfigIdempotent(files: map<string, Config>, test: string)
    ensures WithDefaultConfig(WithDefaultConfig(files, test), test) == WithDefaultConfig(files, test)
  {
  }

  /** Reading after get-or-create gives the existing configuration, or the defaults. */
  lemma ReadAfterCreate(files: map<string, Config>, test: string)
    ensures ReadConfig(WithDefaultConfig(files, test), test) ==
              (if test in files then files[test] else DefaultConfig)
  {
  }

  /** The tests directory: the config.cfg file of each problem that has one. */
  class TestsDir {
    var configs: map<string, Config>

    constructor (initial: map<string, Config>)
      ensures configs == initial
    {
      configs := initial;
    }

    /** `getTestInfo(test)`; `entries` is the listing of the problem's directory. */
    method GetTestInfo(test: string, entries: seq<string>) returns (info: Info)
      modifies this
      ensures configs == WithDefaultConfig(old(configs), test)
      ensures info.list == Subtests(entries)
      ensures test in old(configs) ==> info.config == old(configs)[test] && configs == old(configs)
      ensures test !in old(configs) ==> info.config == DefaultConfig
    {
      var list := CollectSubtests(entries);
      if test !in configs {
        configs := configs[test := DefaultConfig];
      }
      var config := ReadConfig(configs, test);
      info := Info(list, config);
    }
  }

  /** Resolving the same problem twice returns the same information, and the second call
      leaves the tests directory as the first one left it. The problem directory lists
      `before + after`; when the first call creates config.cfg, the second call's listing
      holds it too. */
  method GetTestInfoTwice(dir: TestsDir, test: string, before: seq<string>, after: seq<string>)
    returns (first: Info, second: Info)
    modifies dir
    ensures first == second
    ensures dir.configs == WithDefaultConfig(old(dir.configs), test)
  {
    var created := test !in dir.configs;
    first := dir.GetTestInfo(test, before + after);
    ghost var between := dir.configs;
    var listing := if created then before + ["config.cfg"] + after else before + after;
    SubtestsSkipConfigFile(before, after);
    second := dir.GetTestInfo(test, listing);
    assert dir.configs == between;
  }
}
