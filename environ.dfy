/**
 * The environment table handed to expressions as `env` (`getEnvMap` in
 * main.go): built from the process environment, given here as its list of
 * `KEY=VALUE` entries in the order the operating system reports them.
 */
module Environ {
  import opened Strings

  /** An entry defines `key` when it holds a `=` and the text before the first `=` is `key`. */
  predicate Defines(entry: string, key: string) {
    '=' in entry && SplitN2(entry, '=')[0] == key
  }

  /** The value an entry gives: everything after its first `=`. */
  function ValueOf(entry: string): string
    requires '=' in entry
  {
    SplitN2(entry, '=')[1]
  }

  /** One step of the table-building loop: an entry without `=` is dropped, otherwise its key is (re)bound. */
  function AddEntry(table: map<string, string>, entry: string): map<string, string> {
    var pair := SplitN2(entry, '=');
    if |pair| == 2 then table[pair[0] := pair[1]] else table
  }

  /** The table obtained by adding `entries`, in order, to `table`. */
  function AddEntries(entries: seq<string>, table: map<string, string>): map<string, string> {
    if entries == [] then table else AddEntries(entries[1..], AddEntry(table, entries[0]))
  }

  /** The environment table of a process whose environment is `entries`. */
  function EnvMap(entries: seq<string>): map<string, string> {
    AddEntries(entries, map[])
  }

  /** `getEnvMap`: fills a fresh table entry by entry. */
  method GetEnvMap(environ: seq<string>) returns (envMap: map<string, string>)
    ensures envMap == EnvMap(environ)
  {
    envMap := map[];
    for i := 0 to |environ|
      invariant AddEntries(environ[i..], envMap) == EnvMap(environ)
    {
      var pair := SplitN2(environ[i], '=');
      if |pair| == 2 {
        envMap := envMap[pair[0] := pair[1]];
      }
    }
  }

  /** A key is in the table exactly when the starting table has it or some entry defines it. */
  lemma {:induction false} AddEntriesKeys(entries: seq<string>, table: map<string, string>, key: string)
    ensures key in AddEntries(entries, table) <==>
              key in table || exists i :: 0 <= i < |entries| && Defines(entries[i], key)
  {
    if entries != [] {
      AddEntriesKeys(entries[1..], AddEntry(table, entries[0]), key);
      if exists i :: 0 <= i < |entries[1..]| && Defines(entries[1..][i], key) {
        var i :| 0 <= i < |entries[1..]| && Defines(entries[1..][i], key);
        assert Defines(entries[i + 1], key);
      }
      if exists i :: 0 <= i < |entries| && Defines(entries[i], key) {
        var i :| 0 <= i < |entries| && Defines(entries[i], key);
        if i > 0 { assert Defines(entries[1..][i - 1], key); }
      }
    }
  }

  /** A key no entry defines keeps the binding it had. */
  lemma {:induction false} AddEntriesKeeps(entries: seq<string>, table: map<string, string>, key: string)
    requires key in table
    requires forall i :: 0 <= i < |entries| ==> !Defines(entries[i], key)
    ensures key in AddEntries(entries, table) && AddEntries(entries, table)[key] == table[key]
  {
    if entries != [] {
      assert !Defines(entries[0], key);
      AddEntriesKeeps(entries[1..], AddEntry(table, entries[0]), key);
    }
  }

  /** The last entry defining a key decides its value. */
  lemma {:induction false} AddEntriesLastWins(entries: seq<string>, table: map<string, string>, i: nat)
    requires i < |entries| && '=' in entries[i]
    requires forall j :: i < j < |entries| ==> !Defines(entries[j], SplitN2(entries[i], '=')[0])
    ensures var key := SplitN2(entries[i], '=')[0];
            key in AddEntries(entries, table) && AddEntries(entries, table)[key] == ValueOf(entries[i])
  {
    var key := SplitN2(entries[i], '=')[0];
    if i == 0 {
      var next := AddEntry(table, entries[0]);
      assert key in next && next[key] == ValueOf(entries[0]);
      forall j | 0 <= j < |entries[1..]| ensures !Defines(entries[1..][j], key) {
        assert entries[1..][j] == entries[j + 1];
      }
      AddEntriesKeeps(entries[1..], next, key);
    } else {
      forall j | i - 1 < j < |entries[1..]| ensures !Defines(entries[1..][j], key) {
        assert entries[1..][j] == entries[j + 1];
      }
      AddEntriesLastWins(entries[1..], AddEntry(table, entries[0]), i - 1);
    }
  }

  /**
   * The environment table holds exactly the keys some entry defines; entries
   * without `=` contribute nothing.
   */
  lemma EnvMapKeys(entries: seq<string>, key: string)
    ensures key in EnvMap(entries) <==> exists i :: 0 <= i < |entries| && Defines(entries[i], key)
  {
    AddEntriesKeys(entries, map[], key);
  }

  /** For a key defined more than once, the last definition wins. */
  lemma EnvMapLastWins(entries: seq<string>, i: nat)
    requires i < |entries| && '=' in entries[i]
    requires forall j :: i < j < |entries| ==> !Defines(entries[j], SplitN2(entries[i], '=')[0])
    ensures var key := SplitN2(entries[i], '=')[0];
            key in EnvMap(entries) && EnvMap(entries)[key] == ValueOf(entries[i])
  {
    AddEntriesLastWins(entries, map[], i);
  }

  /** An entry `k=v` with no `=` in `k` defines `k` with value `v`, even when `v` itself holds `=`. */
  lemma EntrySplit(key: string, value: string)
    requires '=' !in key
    ensures Defines(key + "=" + value, key)
    ensures ValueOf(key + "=" + value) == value
  {
    SplitN2At(key, '=', value);
  }
}
