/**
 * The persisted state (src/config.ts): the configuration file, a JSON object of string
 * settings, and the push ledger, a JSON array of records. Each file is either absent or
 * holds a value; every read loads the whole file and every write replaces it.
 */
module ConfigStore {
  import opened Wrappers
  import opened Types

  /** The values `loadConfig` falls back on. */
  const Defaults: map<string, string> := map["defaultBranch" := "main", "defaultTargetPath" := "snippets"]

  /** `{ ...DEFAULTS, ...stored }`: every stored setting wins; the defaults fill only what is
      not stored. */
  function MergeDefaults(stored: map<string, string>): (m: map<string, string>)
    ensures m.Keys == stored.Keys + Defaults.Keys
    ensures forall k :: k in stored ==> m[k] == stored[k]
    ensures forall k :: k in Defaults && k !in stored ==> m[k] == Defaults[k]
  {
    Defaults + stored
  }

  /** The typed view of a loaded object; the two defaulted settings are always present. */
  function ConfigOf(m: map<string, string>): (c: Config)
    requires Defaults.Keys <= m.Keys
    ensures c.githubToken == (if "githubToken" in m then Some(m["githubToken"]) else None)
    ensures c.githubRepo == (if "githubRepo" in m then Some(m["githubRepo"]) else None)
    ensures c.defaultBranch == m["defaultBranch"] && c.defaultTargetPath == m["defaultTargetPath"]
  {
    Config(
      if "githubToken" in m then Some(m["githubToken"]) else None,
      if "githubRepo" in m then Some(m["githubRepo"]) else None,
      m["defaultBranch"], m["defaultTargetPath"])
  }

  /** Stored values override the defaults; absent ones become `main` and `snippets`. */
  lemma LoadedDefaults(stored: map<string, string>)
    ensures ConfigOf(MergeDefaults(stored)).defaultBranch ==
              (if "defaultBranch" in stored then stored["defaultBranch"] else "main")
    ensures ConfigOf(MergeDefaults(stored)).defaultTargetPath ==
              (if "defaultTargetPath" in stored then stored["defaultTargetPath"] else "snippets")
  {
  }

  /** `history.find(r => r.contentHash === hash)`: the earliest record with that digest. */
  function FindFirst(history: seq<PushRecord>, hash: string): (r: Option<PushRecord>)
    ensures r.None? <==> forall k :: 0 <= k < |history| ==> history[k].contentHash != hash
    ensures r.Some? ==> exists k :: 0 <= k < |history| && history[k] == r.value
                                    && r.value.contentHash == hash
                                    && forall j :: 0 <= j < k ==> history[j].contentHash != hash
  {
    if |history| == 0 then None
    else if history[0].contentHash == hash then Some(history[0])
    else
      var r := FindFirst(history[1..], hash);
      assert forall k :: 1 <= k < |history| ==> history[k] == history[1..][k - 1];
      r
  }

  /** Appending keeps an earlier match, and otherwise finds the appended record when its
      digest is the one sought. */
  lemma {:induction false} FindFirstAppend(history: seq<PushRecord>, r: PushRecord, hash: string)
    ensures FindFirst(history, hash).Some? ==> FindFirst(history + [r], hash) == FindFirst(history, hash)
    ensures FindFirst(history, hash).None? ==>
              FindFirst(history + [r], hash) == (if r.contentHash == hash then Some(r) else None)
  {
    if |history| > 0 {
      assert (history + [r])[1..] == history[1..] + [r];
      FindFirstAppend(history[1..], r, hash);
    }
  }

  /** A match in a prefix of the ledger is the match in the whole ledger. */
  lemma {:induction false} FindFirstPrefix(prefix: seq<PushRecord>, history: seq<PushRecord>, hash: string)
    requires |prefix| <= |history| && history[..|prefix|] == prefix
    requires FindFirst(prefix, hash).Some?
    ensures FindFirst(history, hash) == FindFirst(prefix, hash)
  {
    assert history[0] == prefix[0];
    if prefix[0].contentHash != hash {
      assert history[1..][..|prefix| - 1] == prefix[1..];
      FindFirstPrefix(prefix[1..], history[1..], hash);
    }
  }

  /** After appending `r`, looking up its digest succeeds, and finds the earliest record with
      that digest, which is `r` only if none was there before. */
  lemma FoundAfterAppend(history: seq<PushRecord>, r: PushRecord)
    ensures FindFirst(history + [r], r.contentHash).Some?
    ensures FindFirst(history + [r], r.contentHash) ==
              if FindFirst(history, r.contentHash).Some? then FindFirst(history, r.contentHash) else Some(r)
  {
    FindFirstAppend(history, r, r.contentHash);
  }

  /** The two files under the configuration directory. */
  class Store {
    var configFile: Option<map<string, string>>
    var historyFile: Option<seq<PushRecord>>

    constructor (configFile: Option<map<string, string>>, historyFile: Option<seq<PushRecord>>)
      ensures this.configFile == configFile && this.historyFile == historyFile
    {
      this.configFile := configFile;
      this.historyFile := historyFile;
    }

    /** `loadConfig`: nothing when the file is absent, else the stored object over the defaults. */
    function LoadConfig(): (c: Option<map<string, string>>)
      reads this
      ensures c.None? <==> configFile.None?
      ensures c.Some? ==> c.value == MergeDefaults(configFile.value) && Defaults.Keys <= c.value.Keys
    {
      match configFile
      case None => None
      case Some(stored) => Some(MergeDefaults(stored))
    }

    /** `saveConfig`: the file now holds exactly `config`. */
    method SaveConfig(config: map<string, string>)
      modifies this
      ensures configFile == Some(config) && historyFile == old(historyFile)
    {
      configFile := Some(config);
    }

    /** `loadHistory`: the stored records, or none when the file is absent. */
    function LoadHistory(): (h: seq<PushRecord>)
      reads this
      ensures historyFile.None? ==> h == []
      ensures historyFile.Some? ==> h == historyFile.value
    {
      historyFile.GetOr([])
    }

    /** `addHistoryRecord`: load, add at the end, rewrite the whole file. */
    method AddHistoryRecord(record: PushRecord)
      modifies this
      ensures LoadHistory() == old(LoadHistory()) + [record]
      ensures historyFile.Some? && configFile == old(configFile)
    {
      var history := LoadHistory();
      history := history + [record];
      historyFile := Some(history);
    }

    /** `findExistingPush`: the first-match lookup over the whole loaded ledger. */
    function FindExistingPush(hash: string): (r: Option<PushRecord>)
      reads this
      ensures r.None? <==> forall k :: 0 <= k < |LoadHistory()| ==> LoadHistory()[k].contentHash != hash
      ensures r.Some? ==> r.value in LoadHistory() && r.value.contentHash == hash
      ensures r.Some? ==> exists k :: && 0 <= k < |LoadHistory()| && LoadHistory()[k] == r.value
                                     && forall j :: 0 <= j < k ==> LoadHistory()[j].contentHash != hash
    {
      FindFirst(LoadHistory(), hash)
    }
  }
}
