/**
 * The connection configurator (scripts/configure-openwebui-connections.py):
 * the URL and key lists and the model entries it derives from its table of
 * connections, and the script it runs inside the web UI's container, which
 * saves the connection settings and then adds the models, each with the key
 * of its connection.
 */
module ConnectionsSetup {
  import opened Wrappers
  import opened Text
  import opened JsValues
  import opened WebuiDb

  datatype Connection = Connection(name: string, url: string, apiKey: string, models: seq<string>)

  const Connections := [
    Connection("Anthropic (Claude)", "http://agentgateway:3000/anthropic/v1", "sk-anthropic", ["claude-haiku-4-5-20251001"]),
    Connection("OpenAI (GPT)", "http://agentgateway:3000/openai/v1", "sk-openai", ["gpt-5.2-2025-12-11"]),
    Connection("xAI (Grok)", "http://agentgateway:3000/xai/v1", "sk-xai", ["grok-4-latest"]),
    Connection("Gemini", "http://agentgateway:3000/gemini/v1", "sk-gemini", ["gemini-3-pro-preview"])]

  /** The connections' URLs, position by position. */
  function BaseUrls(conns: seq<Connection>): (urls: seq<string>)
    ensures |urls| == |conns| && forall i | 0 <= i < |conns| :: urls[i] == conns[i].url
  {
    seq(|conns|, i requires 0 <= i < |conns| => conns[i].url)
  }

  /** The connections' keys, position by position. */
  function ApiKeys(conns: seq<Connection>): (keys: seq<string>)
    ensures |keys| == |conns| && forall i | 0 <= i < |conns| :: keys[i] == conns[i].apiKey
  {
    seq(|conns|, i requires 0 <= i < |conns| => conns[i].apiKey)
  }

  /** A model offered by connection `apiKeyIndex`. */
  datatype ModelEntry = ModelEntry(id: string, name: string, baseUrl: string, apiKeyIndex: nat)

  /** The entries of connection `i`, one per model in its list. */
  function EntriesOf(conn: Connection, i: nat): seq<ModelEntry> {
    seq(|conn.models|, j requires 0 <= j < |conn.models| =>
      ModelEntry(conn.models[j], ModelDisplayName(conn.name, conn.models[j]), conn.url, i))
  }

  /** `models_data`: the entries of every connection, connection by connection. */
  function ModelsData(conns: seq<Connection>): seq<ModelEntry>
    decreases |conns|
  {
    if conns == [] then [] else ModelsData(conns[..|conns| - 1]) + EntriesOf(conns[|conns| - 1], |conns| - 1)
  }

  method BuildModelsData(conns: seq<Connection>) returns (entries: seq<ModelEntry>)
    ensures entries == ModelsData(conns)
  {
    entries := [];
    var i := 0;
    while i < |conns|
      invariant 0 <= i <= |conns|
      invariant entries == ModelsData(conns[..i])
    {
      assert conns[..i + 1][..i] == conns[..i];
      var conn := conns[i];
      ghost var before := entries;
      var j := 0;
      while j < |conn.models|
        invariant 0 <= j <= |conn.models|
        invariant entries == before + EntriesOf(conn, i)[..j]
      {
        var model := conn.models[j];
        entries := entries + [ModelEntry(model, ModelDisplayName(conn.name, model), conn.url, i)];
        assert EntriesOf(conn, i)[..j + 1] == EntriesOf(conn, i)[..j] + [ModelEntry(model, ModelDisplayName(conn.name, model), conn.url, i)];
        j := j + 1;
      }
      assert EntriesOf(conn, i)[..j] == EntriesOf(conn, i);
      i := i + 1;
    }
    assert conns[..i] == conns;
  }

  /** The number of models over all connections. */
  function TotalModels(conns: seq<Connection>): nat
    decreases |conns|
  {
    if conns == [] then 0 else TotalModels(conns[..|conns| - 1]) + |conns[|conns| - 1].models|
  }

  /**
   * One entry per (connection, model) pair: each names a model of the
   * connection at its index, uses that connection's URL, and is named
   * "<connection> - <model>".
   */
  lemma {:induction false} ModelsDataEntries(conns: seq<Connection>)
    ensures |ModelsData(conns)| == TotalModels(conns)
    ensures forall k | 0 <= k < |ModelsData(conns)| ::
      var e := ModelsData(conns)[k];
      && e.apiKeyIndex < |conns|
      && e.id in conns[e.apiKeyIndex].models
      && e.baseUrl == conns[e.apiKeyIndex].url
      && e.name == ModelDisplayName(conns[e.apiKeyIndex].name, e.id)
    decreases |conns|
  {
    if conns != [] {
      var init := conns[..|conns| - 1];
      ModelsDataEntries(init);
      var data := ModelsData(conns);
      forall k | 0 <= k < |data|
        ensures var e := data[k];
          && e.apiKeyIndex < |conns| && e.id in conns[e.apiKeyIndex].models
          && e.baseUrl == conns[e.apiKeyIndex].url && e.name == ModelDisplayName(conns[e.apiKeyIndex].name, e.id)
      {
        if k < |ModelsData(init)| {
          assert data[k] == ModelsData(init)[k];
          assert conns[data[k].apiKeyIndex] == init[data[k].apiKeyIndex];
        } else {
          var j := k - |ModelsData(init)|;
          assert data[k] == EntriesOf(conns[|conns| - 1], |conns| - 1)[j];
        }
      }
    }
  }

  /** The models the script adds: each entry with the key read back from the key list just written. */
  function ResolvedModels(entries: seq<ModelEntry>, keyList: seq<Value>): seq<NewModel>
    requires forall k | 0 <= k < |entries| :: entries[k].apiKeyIndex < |keyList| && keyList[entries[k].apiKeyIndex].Str?
  {
    seq(|entries|, k requires 0 <= k < |entries| =>
      NewModel(entries[k].id, entries[k].name, entries[k].baseUrl, keyList[entries[k].apiKeyIndex].s))
  }

  /**
   * The models the script adds, one per entry of `ModelsData`, each with the
   * key found at its `api_key_index` in the key list: that is always its own
   * connection's key.
   */
  function KeyedModels(conns: seq<Connection>): (models: seq<NewModel>)
    ensures |models| == |ModelsData(conns)| == TotalModels(conns)
    ensures forall k | 0 <= k < |models| ::
      var e := ModelsData(conns)[k];
      && e.apiKeyIndex < |conns|
      && models[k] == NewModel(e.id, e.name, conns[e.apiKeyIndex].url, conns[e.apiKeyIndex].apiKey)
  {
    ModelsDataEntries(conns);
    ResolvedModels(ModelsData(conns), StrArr(ApiKeys(conns)).items)
  }

  /**
   * The script, generated from the connection table `conns` (`Connections`
   * in the configurator): read and update the document, save and commit it,
   * then insert the missing models. It fails before writing anything when
   * the config table is missing or the document cannot be updated.
   */
  method Configure(db: Database, conns: seq<Connection>, now: int) returns (r: Result<nat, ScriptError>)
    modifies db
    ensures r.Failure? ==> db.configRows == old(db.configRows) && db.models == old(db.models)
    ensures db.hasConfigTable == old(db.hasConfigTable)
    ensures r.Failure? <==>
      (!old(db.hasConfigTable) || UpdatedConfig(old(ConfigData(db)), BaseUrls(conns), ApiKeys(conns)).Failure?)
    ensures r.Success? ==>
      && db.configRows == SavedConfig(old(db.configRows), old(db.FirstConfig()),
                                      UpdatedConfig(old(ConfigData(db)), BaseUrls(conns), ApiKeys(conns)).value)
      && Inserted(db.models, r.value) == InsertAll(old(db.models), KeyedModels(conns), now)
  {
    var urls := BaseUrls(conns);
    var keys := ApiKeys(conns);
    var entries := BuildModelsData(conns);
    if !db.hasConfigTable {
      return Failure(NoConfigTable);
    }
    var read := db.FirstConfig();
    var data := if read.Some? then read.value.data else Obj(map[]);
    var updated := UpdatedConfig(data, urls, keys);
    if updated.Failure? {
      return Failure(updated.error);
    }
    db.SaveConfig(read, updated.value);
    UpdateKeepsOtherKeys(data, urls, keys);
    var keyList := updated.value.fields["OPENAI_API_KEYS"].items;
    ModelsDataEntries(conns);
    var models := ResolvedModels(entries, keyList);
    assert models == KeyedModels(conns);
    var added := db.InsertModels(models, now);
    r := Success(added);
  }

  /** When each connection offers exactly one model, entry i is connection i's model. */
  lemma {:induction false} SingleModelEntries(conns: seq<Connection>)
    requires forall i | 0 <= i < |conns| :: |conns[i].models| == 1
    ensures |ModelsData(conns)| == |conns|
    ensures forall i | 0 <= i < |conns| ::
      ModelsData(conns)[i] == ModelEntry(conns[i].models[0], ModelDisplayName(conns[i].name, conns[i].models[0]), conns[i].url, i)
    decreases |conns|
  {
    if conns != [] {
      var last := |conns| - 1;
      var init := conns[..last];
      SingleModelEntries(init);
      var data := ModelsData(conns);
      assert data == ModelsData(init) + EntriesOf(conns[last], last);
      forall i | 0 <= i < |conns|
        ensures data[i] == ModelEntry(conns[i].models[0], ModelDisplayName(conns[i].name, conns[i].models[0]), conns[i].url, i)
      {
        if i < last {
          assert init[i] == conns[i];
        } else {
          assert data[i] == EntriesOf(conns[last], last)[0];
        }
      }
    }
  }

  /**
   * The four connections each offer the one model their `api_configs`
   * entry lists, so the script adds exactly four models, in connection
   * order, each on its own connection's URL and key.
   */
  lemma ConnectionModels()
    ensures |Connections| == 4 && TotalModels(Connections) == 4
    ensures forall i | 0 <= i < 4 :: Connections[i].models == [ConfiguredModelIds[i]]
    ensures forall i | 0 <= i < 4 ::
      KeyedModels(Connections)[i] ==
        NewModel(ConfiguredModelIds[i], ModelDisplayName(Connections[i].name, ConfiguredModelIds[i]), Connections[i].url, Connections[i].apiKey)
  {
    var c := Connections;
    assert forall i | 0 <= i < 4 :: c[i].models == [ConfiguredModelIds[i]];
    SingleModelEntries(c);
    var data := ModelsData(c);
    var models := KeyedModels(c);
    forall i | 0 <= i < 4
      ensures models[i] == NewModel(ConfiguredModelIds[i], ModelDisplayName(c[i].name, ConfiguredModelIds[i]), c[i].url, c[i].apiKey)
    {
      assert data[i].apiKeyIndex == i;
    }
  }

  /**
   * The connection table yields the same URL list, key list and models as
   * the other two setup scripts write out by hand.
   */
  lemma SameAsGatewayModels()
    ensures BaseUrls(Connections) == GatewayUrls
    ensures ApiKeys(Connections) == GatewayKeys
    ensures KeyedModels(Connections) == GatewayModels
  {
    var c := Connections;
    assert BaseUrls(c) == GatewayUrls by {
      assert forall i | 0 <= i < 4 :: BaseUrls(c)[i] == c[i].url == GatewayUrls[i];
    }
    assert ApiKeys(c) == GatewayKeys by {
      assert forall i | 0 <= i < 4 :: ApiKeys(c)[i] == c[i].apiKey == GatewayKeys[i];
    }
    ConnectionModels();
    var models := KeyedModels(c);
    assert models[0] == GatewayModels[0];
    assert models[1] == GatewayModels[1];
    assert models[2] == GatewayModels[2];
    assert models[3] == GatewayModels[3];
    SamePositions(models, GatewayModels);
  }

  /** Two lists of four models with the same model at each position are equal. */
  lemma SamePositions(a: seq<NewModel>, b: seq<NewModel>)
    requires |a| == 4 && |b| == 4
    requires a[0] == b[0] && a[1] == b[1] && a[2] == b[2] && a[3] == b[3]
    ensures a == b
  {
    assert forall i | 0 <= i < 4 :: a[i] == b[i];
  }
}
