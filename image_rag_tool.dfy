/**
 * The document retrieval tool with images (`ImageRAGTool` in
 * `tools/implementations/image_rag_tool.py`). It reads its settings, taking some of them
 * from environment variables. It runs the Elasticsearch query, optionally filtering out
 * image documents. It orders the hits by score, highest first, and renders the first
 * `top_k` of them as text. Up to `max_images` image hits are fetched and attached as
 * content objects, each followed by its description. The text is wrapped in a header.
 *
 * The environment, the query builder, the search client and the HTTP download of an image
 * (with its IAM token and base64 encoding) are parameters. The search response is reduced
 * to its hits.
 */
module ImageRagTool {
  import opened Wrappers
  import opened JsonValue
  import opened PyStr
  import opened ScoreSort
  import opened EsSearch
  import PyDict
  import PyReplace

  type Fields = seq<(string, Json)>

  /** `os.environ.get(name)`. */
  type Env = string -> Option<string>

  /** `os.environ.get(name, default)`. */
  function EnvGet(env: Env, name: string, default: string): string
  {
    env(name).GetOr(default)
  }

  // ----- configuration -----

  /** The entries `_load_config_from_env` can take from the environment, in the order it
      looks at them. */
  const EnvKeys: seq<string> := ["endpoint", "api_key", "ibm_cos_api_key", "ibm_cos_service_instance_id",
                                 "ibm_cos_endpoint", "ibm_cos_bucket", "ibm_cos_public_endpoint"]

  /** The entry `key` when `config` has a `<key>_env` entry naming a variable set to a
      non-empty value: that value. `None` when the name is not a string (`os.environ`
      raises `TypeError`). */
  function EnvOverride(config: Fields, key: string, env: Env): Option<Option<string>>
  {
    match Get(config, key + "_env")
    case None => Some(None)
    case Some(name) =>
      if !name.JStr? then None
      else
        var value := env(name.s);
        Some(if value.Some? && value.value != "" then value else None)
  }

  /** The copy of `config` after the environment has been consulted for `keys`; `None`
      when a variable name is not a string. */
  function LoadKeys(config: Fields, keys: seq<string>, env: Env): Option<Fields>
  {
    if keys == [] then Some(config)
    else
      var key := keys[|keys| - 1];
      match LoadKeys(config, keys[..|keys| - 1], env)
      case None => None
      case Some(updated) =>
        match EnvOverride(config, key, env)
        case None => None
        case Some(value) => Some(if value.Some? then Put(updated, key, JStr(value.value)) else updated)
  }

  /** `_load_config_from_env(config)`. */
  function LoadConfigFromEnv(config: Fields, env: Env): Option<Fields>
  {
    LoadKeys(config, EnvKeys, env)
  }

  /** The settings the tool keeps from its `connector_config`. */
  datatype Settings = Settings(
    maxImages: int, topK: int, maxRetries: int,
    cosBucket: Json, cosEndpoint: Json, cosPublicEndpoint: Json)

  /** `config.get(key, default)` for a numeric setting; `None` for a value that is not an
      integer. */
  function IntSetting(config: Fields, key: string, default: int): Option<int>
  {
    match Get(config, key)
    case None => Some(default)
    case Some(v) => if v.JNum? then Some(v.n) else None
  }

  /** `__init__(config)`: the settings, or `None` when the connector configuration is not
      a dict, a variable name is not a string, or a numeric setting is not an integer. */
  function Init(config: Fields, env: Env): Option<Settings>
  {
    var connector := Get(config, "connector_config").GetOr(JObj([]));
    if !connector.JObj? then None
    else
      match LoadConfigFromEnv(connector.fields, env)
      case None => None
      case Some(es) =>
        var maxImages := IntSetting(es, "max_images", 1);
        var topK := IntSetting(es, "top_k", 5);
        var maxRetries := IntSetting(es, "max_retries", 3);
        if maxImages.None? || topK.None? || maxRetries.None? then None
        else Some(Settings(maxImages.value, topK.value, maxRetries.value,
                           Get(es, "ibm_cos_bucket").GetOr(JNull),
                           Get(es, "ibm_cos_endpoint").GetOr(JNull),
                           Get(es, "ibm_cos_public_endpoint").GetOr(JNull)))
  }

  /** The keys are distinct. */
  predicate Distinct(keys: seq<string>)
  {
    forall i, j :: 0 <= i < j < |keys| ==> keys[i] != keys[j]
  }

  /** Loading succeeds unless a `<key>_env` entry holds a non-string, and then every key
      looked at holds its variable's value when that is set and non-empty, and keeps its
      configured value otherwise; nothing else changes. */
  lemma {:induction false} LoadKeysContents(config: Fields, keys: seq<string>, env: Env, x: string)
    requires Distinct(keys)
    ensures LoadKeys(config, keys, env).Some? ==>
      Get(LoadKeys(config, keys, env).value, x) ==
        if x in keys && EnvOverride(config, x, env).Some? && EnvOverride(config, x, env).value.Some?
        then Some(JStr(EnvOverride(config, x, env).value.value))
        else Get(config, x)
    decreases |keys|
  {
    if keys != [] {
      var key := keys[|keys| - 1];
      var init := keys[..|keys| - 1];
      assert keys == init + [key];
      assert Distinct(init);
      LoadKeysContents(config, init, env, x);
      assert key !in init;
      var prev := LoadKeys(config, init, env);
      if prev.Some? && EnvOverride(config, key, env).Some? {
        var value := EnvOverride(config, key, env).value;
        if value.Some? {
          GetPut(prev.value, key, JStr(value.value), x);
        }
      }
    }
  }

  /** Loading fails exactly when some `<key>_env` entry looked at holds a non-string. */
  lemma {:induction false} LoadKeysFails(config: Fields, keys: seq<string>, env: Env)
    ensures LoadKeys(config, keys, env).None? <==> exists k :: k in keys && EnvOverride(config, k, env).None?
    decreases |keys|
  {
    if keys != [] {
      var init := keys[..|keys| - 1];
      assert keys == init + [keys[|keys| - 1]];
      LoadKeysFails(config, init, env);
    }
  }

  /** The seven keys are distinct, so each is taken from the environment at most once. */
  lemma {:induction false} EnvKeysDistinct()
    ensures Distinct(EnvKeys)
  {
    assert EnvKeys[0] == "endpoint" && EnvKeys[1] == "api_key" && EnvKeys[2] == "ibm_cos_api_key";
    assert |EnvKeys[0]| == 8 && |EnvKeys[1]| == 7 && |EnvKeys[2]| == 15 && |EnvKeys[3]| == 27;
    assert |EnvKeys[4]| == 16 && |EnvKeys[5]| == 14 && |EnvKeys[6]| == 23;
  }

  /** Without a connector configuration the tool shows one image and five hits and makes
      three attempts. */
  lemma {:induction false} InitDefaults(config: Fields, env: Env)
    requires "connector_config" !in Keys(config)
    ensures Init(config, env) == Some(Settings(1, 5, 3, JNull, JNull, JNull))
  {
    LoadKeysEmpty(EnvKeys, env);
  }

  /** An empty configuration names no variables and loads as empty. */
  lemma {:induction false} LoadKeysEmpty(keys: seq<string>, env: Env)
    ensures LoadKeys([], keys, env) == Some([])
    decreases |keys|
  {
    if keys != [] {
      LoadKeysEmpty(keys[..|keys| - 1], env);
    }
  }

  /** A `<key>_env` entry naming a set, non-empty variable makes the loaded configuration
      hold that variable's value for the bucket. */
  lemma {:induction false} BucketFromEnv(connector: Fields, env: Env, name: string)
    requires Get(connector, "ibm_cos_bucket_env") == Some(JStr(name))
    requires env(name).Some? && env(name).value != ""
    requires LoadConfigFromEnv(connector, env).Some?
    ensures Get(LoadConfigFromEnv(connector, env).value, "ibm_cos_bucket") == Some(JStr(env(name).value))
  {
    EnvKeysDistinct();
    BucketEnvKey();
    assert EnvKeys[5] == "ibm_cos_bucket";
    LoadKeysContents(connector, EnvKeys, env, "ibm_cos_bucket");
  }

  lemma {:induction false} BucketEnvKey()
    ensures "ibm_cos_bucket" + "_env" == "ibm_cos_bucket_env"
  {
  }

  // ----- image URL -----

  predicate StartsWithSlash(s: string)
  {
    s != [] && s[0] == '/'
  }

  predicate EndsWithSlash(s: string)
  {
    s != [] && s[|s| - 1] == '/'
  }

  /** `s.startswith(('http://', 'https://'))`. */
  predicate HasScheme(s: string)
  {
    PyReplace.StartsWith(s, "http://") || PyReplace.StartsWith(s, "https://")
  }

  /** `f"{a}{b}"` with one slash at the seam when exactly one side has one there, one
      dropped when both have one, one added when neither has. */
  function JoinSlash(a: string, b: string): string
  {
    if EndsWithSlash(a) && StartsWithSlash(b) then a + b[1..]
    else if !EndsWithSlash(a) && !StartsWithSlash(b) then a + "/" + b
    else a + b
  }

  /** `configured or os.environ.get(name, default)`. */
  function Configured(configured: Json, env: Env, name: string, default: string): Json
  {
    if IsTruthy(configured) then configured else JStr(EnvGet(env, name, default))
  }

  /** The endpoint the URL is built on: the public one, else the regular one. */
  function CosEndpoint(s: Settings, env: Env): Json
  {
    var public := Configured(s.cosPublicEndpoint, env, "IBM_COS_PUBLIC_ENDPOINT", "");
    if IsTruthy(public) then public else Configured(s.cosEndpoint, env, "IBM_COS_ENDPOINT", "")
  }

  function CosBucket(s: Settings, env: Env): Json
  {
    Configured(s.cosBucket, env, "IBM_COS_BUCKET", "rag-docs-bucket")
  }

  /** The URL `_fetch_and_encode_image` fetches for a non-empty `image_url`: absolute URLs
      as they are, relative ones under the bucket on the storage endpoint when there is
      one. A `Failure` is the `AttributeError` of a configured value that is not a
      string. */
  function ImageUrl(imageUrl: string, s: Settings, env: Env): Result<string>
  {
    if HasScheme(imageUrl) then Success(imageUrl)
    else
      var bucket := CosBucket(s, env);
      var endpoint := CosEndpoint(s, env);
      if !IsTruthy(endpoint) then Success(imageUrl)
      else if !endpoint.JStr? || !bucket.JStr? then Failure("AttributeError")
      else
        var base := if HasScheme(endpoint.s) then endpoint.s else "https://" + endpoint.s;
        Success(JoinSlash(JoinSlash(base, bucket.s), imageUrl))
  }

  /** The URL assembly of `_fetch_and_encode_image`, step by step. */
  method AssembleImageUrl(imageUrl: string, s: Settings, env: Env) returns (r: Result<string>)
    ensures r == ImageUrl(imageUrl, s, env)
  {
    var url := imageUrl;
    if !HasScheme(url) {
      var bucket := CosBucket(s, env);
      var endpoint := Configured(s.cosPublicEndpoint, env, "IBM_COS_PUBLIC_ENDPOINT", "");
      if !IsTruthy(endpoint) {
        endpoint := Configured(s.cosEndpoint, env, "IBM_COS_ENDPOINT", "");
      }
      if IsTruthy(endpoint) {
        if !endpoint.JStr? {
          return Failure("AttributeError");
        }
        if !HasScheme(endpoint.s) {
          endpoint := JStr("https://" + endpoint.s);
        }
        if !bucket.JStr? {
          return Failure("AttributeError");
        }
        var fullUrl;
        if EndsWithSlash(endpoint.s) && StartsWithSlash(bucket.s) {
          fullUrl := endpoint.s + bucket.s[1..];
        } else if !EndsWithSlash(endpoint.s) && !StartsWithSlash(bucket.s) {
          fullUrl := endpoint.s + "/" + bucket.s;
        } else {
          fullUrl := endpoint.s + bucket.s;
        }
        if EndsWithSlash(fullUrl) && StartsWithSlash(url) {
          url := fullUrl + url[1..];
        } else if !EndsWithSlash(fullUrl) && !StartsWithSlash(url) {
          url := fullUrl + "/" + url;
        } else {
          url := fullUrl + url;
        }
      }
    }
    return Success(url);
  }

  /** Optional slash. */
  function Slash(present: bool): string
  {
    if present then "/" else ""
  }

  /** Whatever single slashes the two sides carry at the seam, the join has exactly
      one. */
  lemma {:induction false} JoinSlashSeam(a: string, b: string, endSlash: bool, startSlash: bool)
    requires !EndsWithSlash(a) && !StartsWithSlash(b)
    ensures JoinSlash(a + Slash(endSlash), Slash(startSlash) + b) == a + "/" + b
  {
    if endSlash && startSlash {
      var l, r := a + "/", "/" + b;
      assert EndsWithSlash(l) && StartsWithSlash(r);
      assert r[1..] == b;
    } else if endSlash {
      var l := a + "/";
      assert EndsWithSlash(l);
      assert Slash(startSlash) + b == b;
    } else if startSlash {
      var r := "/" + b;
      assert StartsWithSlash(r);
      assert a + Slash(endSlash) == a;
      assert a + r == a + "/" + b;
    } else {
      assert a + Slash(endSlash) == a;
      assert Slash(startSlash) + b == b;
    }
  }

  /** Absolute URLs are fetched as they are, and so are relative ones when no storage
      endpoint is configured; a configured endpoint without a scheme is taken as
      `https://`. */
  lemma {:induction false} ImageUrlCases(imageUrl: string, s: Settings, env: Env)
    ensures HasScheme(imageUrl) ==> ImageUrl(imageUrl, s, env) == Success(imageUrl)
    ensures !IsTruthy(CosEndpoint(s, env)) ==> ImageUrl(imageUrl, s, env) == Success(imageUrl)
    ensures (!HasScheme(imageUrl) && CosEndpoint(s, env).JStr? && CosEndpoint(s, env).s != [] &&
      !HasScheme(CosEndpoint(s, env).s) && CosBucket(s, env).JStr?) ==>
      ImageUrl(imageUrl, s, env) ==
        Success(JoinSlash(JoinSlash("https://" + CosEndpoint(s, env).s, CosBucket(s, env).s), imageUrl))
  {
  }

  /** With at most one slash on either side of each seam, a relative URL comes out as
      endpoint, bucket and object path separated by single slashes. */
  lemma {:induction false} ImageUrlShape(imageUrl: string, s: Settings, env: Env,
                      endpoint: string, bucket: string, path: string, s1: bool, s2: bool, s3: bool, s4: bool)
    requires !HasScheme(imageUrl) && imageUrl == Slash(s4) + path && !StartsWithSlash(path)
    requires CosEndpoint(s, env) == JStr(endpoint + Slash(s1)) && HasScheme(endpoint + Slash(s1))
    requires !EndsWithSlash(endpoint)
    requires CosBucket(s, env) == JStr(Slash(s2) + bucket + Slash(s3))
    requires bucket != [] && !StartsWithSlash(bucket) && !EndsWithSlash(bucket)
    ensures ImageUrl(imageUrl, s, env) == Success(endpoint + "/" + bucket + "/" + path)
  {
    assert (Slash(s2) + bucket + Slash(s3)) == Slash(s2) + (bucket + Slash(s3));
    JoinSlashSeam(endpoint, bucket + Slash(s3), s1, s2);
    assert endpoint + "/" + (bucket + Slash(s3)) == (endpoint + "/" + bucket) + Slash(s3);
    var joined := endpoint + "/" + bucket;
    assert joined[|joined| - 1] == bucket[|bucket| - 1];
    JoinSlashSeam(joined, path, s3, s4);
  }

  // ----- query body -----

  /** The filter term added to drop image documents. */
  const ImageTerm := JObj([("term", JObj([("content_type.keyword", JStr("image"))]))])

  /** Python's `"bool" in text`: the four letters occur together somewhere in `text`. */
  predicate HoldsBool(text: string)
    decreases |text|
  {
    |text| >= 4 &&
    ((text[0] == 'b' && text[1] == 'o' && text[2] == 'o' && text[3] == 'l') || HoldsBool(text[1..]))
  }

  /** `HoldsBool` is substring containment. */
  lemma {:induction false} HoldsBoolIsContains(text: string)
    ensures HoldsBool(text) <==> PyReplace.Contains(text, "bool")
    decreases |text|
  {
    if |text| >= 4 {
      HoldsBoolIsContains(text[1..]);
      if PyReplace.Contains(text[1..], "bool") {
        var j :| 0 <= j <= |text[1..]| && PyReplace.StartsWith(text[1..][j..], "bool");
        assert text[1..][j..] == text[j + 1..];
      }
      if PyReplace.Contains(text, "bool") {
        var i :| 0 <= i <= |text| && PyReplace.StartsWith(text[i..], "bool");
        if i > 0 {
          assert text[1..][i - 1..] == text[i..];
        } else {
          assert text[..4] == "bool";
        }
      }
      if text[0] == 'b' && text[1] == 'o' && text[2] == 'o' && text[3] == 'l' {
        assert text[0..][..4] == "bool";
      }
    } else if PyReplace.Contains(text, "bool") {
      assert false;
    }
  }

  /** Python's `"bool" in query`: a key of a dict, a substring of a string, an element of
      a list; `None` for the `TypeError` any other value raises. */
  function HasBoolKey(query: Json): Option<bool>
  {
    match query
    case JObj(fields) => Some("bool" in Keys(fields))
    case JStr(text) => Some(HoldsBool(text))
    case JArr(items) => Some(JStr("bool") in items)
    case _ => None
  }

  /** The query as a `bool` query: a query without `"bool"` becomes its only `must`
      clause, and a dict holding `"bool"` is kept. `TypeError` when `"bool" in` cannot
      test the query, or when a string or list query holds `"bool"` and is then
      subscripted. */
  function WrappedQuery(query: Json): Result<Fields>
  {
    match HasBoolKey(query)
    case None => Failure("TypeError")
    case Some(true) => if query.JObj? then Success(query.fields) else Failure("TypeError")
    case Some(false) => Success([("bool", JObj([("must", JArr([query]))]))])
  }

  /** The wrapped query with the image term appended to the `must_not` list of its `bool`
      query, created when missing. `TypeError` when the `bool` query is not a dict, and
      `AttributeError` when `must_not` is not a list. */
  function WithImageTerm(wrapped: Fields): Result<Fields>
  {
    var boolQuery := Get(wrapped, "bool").GetOr(JNull);
    if !boolQuery.JObj? then Failure("TypeError")
    else
      var mustNot := Get(boolQuery.fields, "must_not").GetOr(JArr([]));
      if !mustNot.JArr? then Failure("AttributeError")
      else Success(Put(wrapped, "bool", JObj(Put(boolQuery.fields, "must_not", JArr(mustNot.items + [ImageTerm])))))
  }

  /** The query body with image documents filtered out; a missing query counts as `{}`. */
  function ExcludeImages(body: Fields): Result<Fields>
  {
    match WrappedQuery(Get(body, "query").GetOr(JObj([])))
    case Failure(e) => Failure(e)
    case Success(wrapped) =>
      match WithImageTerm(wrapped)
      case Failure(e) => Failure(e)
      case Success(query) => Success(Put(body, "query", JObj(query)))
  }

  /** A string or list query without `"bool"` is wrapped like any other query, and one
      holding it raises, as do numbers, booleans and `None`. */
  lemma {:induction false} ExcludeImagesQueryKinds(body: Fields, text: string, items: seq<Json>)
    ensures Get(body, "query") == Some(JStr(text)) ==>
      (ExcludeImages(body).Failure? <==> HoldsBool(text))
    ensures Get(body, "query") == Some(JArr(items)) ==>
      (ExcludeImages(body).Failure? <==> JStr("bool") in items)
    ensures Get(body, "query").Some? && (Get(body, "query").value.JNull? || Get(body, "query").value.JNum? || Get(body, "query").value.JBool?) ==>
      ExcludeImages(body) == Failure("TypeError")
  {
    var query := Get(body, "query").GetOr(JObj([]));
    if !query.JObj? && HasBoolKey(query) == Some(false) {
      var wrapped: Fields := [("bool", JObj([("must", JArr([query]))]))];
      assert Get(wrapped, "bool") == Some(JObj([("must", JArr([query]))]));
      assert Get([("must", JArr([query]))], "must_not").None?;
      assert WithImageTerm(wrapped).Success?;
    }
  }

  /** Appending the image term keeps every other clause of the `bool` query and extends
      its `must_not` list. */
  lemma {:induction false} WithImageTermProperties(wrapped: Fields, x: string)
    requires WithImageTerm(wrapped).Success?
    ensures var boolQuery := Get(wrapped, "bool").value;
      var newQuery := WithImageTerm(wrapped).value;
      Get(newQuery, "bool").Some? && Get(newQuery, "bool").value.JObj? &&
      var newBool := Get(newQuery, "bool").value.fields;
      Get(newBool, "must_not") == Some(JArr(Get(boolQuery.fields, "must_not").GetOr(JArr([])).items + [ImageTerm])) &&
      (x != "must_not" ==> Get(newBool, x) == Get(boolQuery.fields, x))
  {
    var boolQuery := Get(wrapped, "bool").value;
    var mustNot := Get(boolQuery.fields, "must_not").GetOr(JArr([]));
    var newBool := Put(boolQuery.fields, "must_not", JArr(mustNot.items + [ImageTerm]));
    GetPut(wrapped, "bool", JObj(newBool), "bool");
    GetPut(boolQuery.fields, "must_not", JArr(mustNot.items + [ImageTerm]), x);
    GetPut(boolQuery.fields, "must_not", JArr(mustNot.items + [ImageTerm]), "must_not");
  }

  /** The filtered body keeps every other entry, and its query's `bool` keeps every other
      clause and has `must_not` extended by the image term; a query that was not a `bool`
      query becomes its only `must` clause. */
  lemma {:induction false} ExcludeImagesProperties(body: Fields, x: string)
    requires ExcludeImages(body).Success?
    ensures var r := ExcludeImages(body).value;
      var query := Get(body, "query").GetOr(JObj([]));
      var boolQuery := Get(WrappedQuery(query).value, "bool").value;
      (x != "query" ==> Get(r, x) == Get(body, x)) &&
      Get(r, "query").Some? && Get(r, "query").value.JObj? &&
      Get(Get(r, "query").value.fields, "bool").Some? &&
      Get(Get(r, "query").value.fields, "bool").value.JObj? &&
      var newBool := Get(Get(r, "query").value.fields, "bool").value.fields;
      Get(newBool, "must_not") == Some(JArr(Get(boolQuery.fields, "must_not").GetOr(JArr([])).items + [ImageTerm])) &&
      (x != "must_not" ==> Get(newBool, x) == Get(boolQuery.fields, x)) &&
      (!(query.JObj? && "bool" in Keys(query.fields)) ==> Get(newBool, "must") == Some(JArr([query])))
  {
    var query := Get(body, "query").GetOr(JObj([]));
    var wrapped := WrappedQuery(query).value;
    var newQuery := WithImageTerm(wrapped).value;
    assert ExcludeImages(body).value == Put(body, "query", JObj(newQuery));
    assert !(query.JObj? && "bool" in Keys(query.fields)) ==>
      Get(Get(wrapped, "bool").value.fields, "must") == Some(JArr([query])) by {
      if !(query.JObj? && "bool" in Keys(query.fields)) {
        assert HasBoolKey(query) == Some(false);
        var clauses: Fields := [("must", JArr([query]))];
        assert wrapped == [("bool", JObj(clauses))];
        assert Get(clauses, "must") == Some(JArr([query]));
      }
    }
    FilteredBody(body, query, wrapped, newQuery, x);
  }

  /** The body with its query replaced by the wrapped query extended with the image term. */
  lemma {:induction false} FilteredBody(body: Fields, query: Json, wrapped: Fields, newQuery: Fields, x: string)
    requires WithImageTerm(wrapped) == Success(newQuery)
    requires !(query.JObj? && "bool" in Keys(query.fields)) ==>
      Get(Get(wrapped, "bool").value.fields, "must") == Some(JArr([query]))
    ensures var r := Put(body, "query", JObj(newQuery));
      var boolQuery := Get(wrapped, "bool").value;
      (x != "query" ==> Get(r, x) == Get(body, x)) &&
      Get(r, "query").Some? && Get(r, "query").value.JObj? &&
      Get(Get(r, "query").value.fields, "bool").Some? &&
      Get(Get(r, "query").value.fields, "bool").value.JObj? &&
      var newBool := Get(Get(r, "query").value.fields, "bool").value.fields;
      Get(newBool, "must_not") == Some(JArr(Get(boolQuery.fields, "must_not").GetOr(JArr([])).items + [ImageTerm])) &&
      (x != "must_not" ==> Get(newBool, x) == Get(boolQuery.fields, x)) &&
      (!(query.JObj? && "bool" in Keys(query.fields)) ==> Get(newBool, "must") == Some(JArr([query])))
  {
    GetPut(body, "query", JObj(newQuery), x);
    GetPut(body, "query", JObj(newQuery), "query");
    WithImageTermProperties(wrapped, x);
    WithImageTermProperties(wrapped, "must");
  }

  /** The body sent to the search client. */
  function QueryBody(body: Fields, includeImages: bool): Result<Fields>
  {
    if includeImages then Success(body) else ExcludeImages(body)
  }

  // ----- hits -----

  /** A search hit: its `_score` (`None` when null) and, when present, its `_source` dict
      and its `fields` dict of value lists. */
  datatype RawHit = RawHit(score: Option<int>, source: Option<Fields>, fields: Option<seq<(string, seq<Json>)>>)

  /** `hit_data`: what the rendering reads of a hit (`None` is `JNull`). */
  datatype HitData = HitData(
    score: Option<int>, content: Json, contentType: Json, imageUrl: Json, imageHash: Json,
    sectionHeader: Json, pageNumber: Json)

  /** `_get_first_value(field_values)`: the first value, or `""` for an empty list. */
  function GetFirstValue(values: seq<Json>): (r: Json)
    ensures values != [] ==> r == values[0]
    ensures values == [] ==> r == JStr("")
  {
    if values != [] then values[0] else JStr("")
  }

  /** `fields.get(key, [])`. */
  function FieldValues(fields: seq<(string, seq<Json>)>, key: string): seq<Json>
  {
    PyDict.Get(fields, key).GetOr([])
  }

  /** The `hit_data` built for a hit: from `_source` (with its defaults) when present,
      else the first value of each `fields` list, else the empty record. */
  function HitDataOf(hit: RawHit): HitData
  {
    if hit.source.Some? then
      var src := hit.source.value;
      HitData(hit.score, Get(src, "content").GetOr(JStr("")), Get(src, "content_type").GetOr(JStr("text")),
              Get(src, "image_url").GetOr(JNull), Get(src, "image_hash").GetOr(JNull),
              Get(src, "section_header").GetOr(JStr("")), Get(src, "page_number").GetOr(JStr("")))
    else if hit.fields.Some? then
      var f := hit.fields.value;
      HitData(hit.score, GetFirstValue(FieldValues(f, "content")), GetFirstValue(FieldValues(f, "content_type")),
              GetFirstValue(FieldValues(f, "image_url")), GetFirstValue(FieldValues(f, "image_hash")),
              GetFirstValue(FieldValues(f, "section_header")), GetFirstValue(FieldValues(f, "page_number")))
    else HitData(hit.score, JStr(""), JStr("text"), JNull, JNull, JStr(""), JStr(""))
  }

  /** The loop building `hits`, one record per hit in order. */
  method ExtractHits(raw: seq<RawHit>) returns (hits: seq<HitData>)
    ensures |hits| == |raw| && forall i :: 0 <= i < |raw| ==> hits[i] == HitDataOf(raw[i])
  {
    hits := [];
    for i := 0 to |raw|
      invariant |hits| == i && forall j :: 0 <= j < i ==> hits[j] == HitDataOf(raw[j])
    {
      hits := hits + [HitDataOf(raw[i])];
      ExtendMapped(raw, hits, i, HitDataOf);
    }
  }

  /** Appending the image of the next element keeps the prefix mapped pointwise. */
  lemma {:induction false} ExtendMapped<A, B>(raw: seq<A>, out: seq<B>, i: int, f: A -> B)
    requires 0 <= i < |raw| && |out| == i + 1 && out[i] == f(raw[i])
    requires forall j :: 0 <= j < i ==> out[..i][j] == f(raw[j])
    ensures forall j :: 0 <= j <= i ==> out[j] == f(raw[j])
  {
    forall j | 0 <= j <= i
      ensures out[j] == f(raw[j])
    {
      if j < i {
        assert out[j] == out[..i][j];
      }
    }
  }

  /** The sort key. A null score only reaches a sort that does not raise when it is the
      only hit, and a single hit is left where it is whatever its key. */
  function Score(h: HitData): int
  {
    h.score.GetOr(0)
  }

  /** `hits.sort(key=lambda x: x["_score"], ...)` raises `TypeError`: with two or more
      hits every one is compared, and a null score cannot be ordered. */
  predicate SortRaises(hits: seq<HitData>)
  {
    |hits| >= 2 && exists i :: 0 <= i < |hits| && hits[i].score.None?
  }

  function HitsData(raw: seq<RawHit>): (r: seq<HitData>)
    ensures |r| == |raw| && forall i :: 0 <= i < |raw| ==> r[i] == HitDataOf(raw[i])
  {
    seq(|raw|, i requires 0 <= i < |raw| => HitDataOf(raw[i]))
  }

  // ----- rendering -----

  /** An entry of the response's `content_objects`. */
  datatype ContentObject = ImageContent(url: string) | TextContent(text: string)

  /** What `_fetch_and_encode_image` gives for a hit's `image_url`: the base64 text or
      `None`, or an exception (which the hit loop catches). */
  type Fetch = Json -> Result<Option<string>>

  /** The hit loop's state: `text_content`, `content_objects` and `image_count`. */
  datatype Rendering = Rendering(text: seq<string>, objects: seq<ContentObject>, imageCount: int)

  function SectionInfo(h: HitData): string
  {
    if IsTruthy(h.sectionHeader) then "Section: " + Str(h.sectionHeader) + "\n\n" else ""
  }

  function PageInfo(h: HitData): string
  {
    if IsTruthy(h.pageNumber) then "(Page " + Str(h.pageNumber) + ")" else ""
  }

  /** An image hit that images are requested for. */
  predicate IsImageHit(h: HitData, includeImages: bool)
  {
    h.contentType == JStr("image") && includeImages && IsTruthy(h.imageUrl)
  }

  /** One pass of the hit loop. */
  function RenderHit(r: Rendering, h: HitData, includeImages: bool, maxImages: int, fetch: Fetch): Rendering
  {
    var section, page := SectionInfo(h), PageInfo(h);
    if IsImageHit(h, includeImages) && r.imageCount < maxImages then
      var described := r.text + [section + "[Image] " + page + "\n" + Str(h.content)];
      match fetch(h.imageUrl)
      case Failure(_) =>
        Rendering(described + [section + "[Image - Error loading] " + page + "\n" + Str(h.content)], r.objects, r.imageCount)
      case Success(encoded) =>
        if encoded.Some? && encoded.value != "" then
          Rendering(described, r.objects + [ImageContent("data:image/png;base64," + encoded.value),
                                            TextContent(section + "Image description " + page + ": " + Str(h.content))],
                    r.imageCount + 1)
        else Rendering(described, r.objects, r.imageCount)
    else if IsImageHit(h, includeImages) then
      Rendering(r.text + [section + "[Image - Limit reached] " + page + "\n" + Str(h.content)], r.objects, r.imageCount)
    else Rendering(r.text + [section + Str(h.content) + " " + page], r.objects, r.imageCount)
  }

  /** The hit loop over `hits`. */
  function RenderAll(hits: seq<HitData>, includeImages: bool, maxImages: int, fetch: Fetch): Rendering
  {
    if hits == [] then Rendering([], [], 0)
    else RenderHit(RenderAll(hits[..|hits| - 1], includeImages, maxImages, fetch), hits[|hits| - 1], includeImages, maxImages, fetch)
  }

  /** The hit loop of `_retrieve_content`. */
  method AssembleContent(hits: seq<HitData>, includeImages: bool, maxImages: int, fetch: Fetch)
    returns (textContent: seq<string>, contentObjects: seq<ContentObject>, imageCount: int)
    ensures Rendering(textContent, contentObjects, imageCount) == RenderAll(hits, includeImages, maxImages, fetch)
  {
    textContent, contentObjects, imageCount := [], [], 0;
    for i := 0 to |hits|
      invariant Rendering(textContent, contentObjects, imageCount) == RenderAll(hits[..i], includeImages, maxImages, fetch)
    {
      var hit := hits[i];
      assert hits[..i + 1][..i] == hits[..i];
      var sectionInfo := "";
      if IsTruthy(hit.sectionHeader) {
        sectionInfo := "Section: " + Str(hit.sectionHeader) + "\n\n";
      }
      var pageInfo := "";
      if IsTruthy(hit.pageNumber) {
        pageInfo := "(Page " + Str(hit.pageNumber) + ")";
      }
      if IsImageHit(hit, includeImages) && imageCount < maxImages {
        textContent := textContent + [sectionInfo + "[Image] " + pageInfo + "\n" + Str(hit.content)];
        var fetched := fetch(hit.imageUrl);
        if fetched.Failure? {
          textContent := textContent + [sectionInfo + "[Image - Error loading] " + pageInfo + "\n" + Str(hit.content)];
        } else if fetched.value.Some? && fetched.value.value != "" {
          contentObjects := contentObjects + [ImageContent("data:image/png;base64," + fetched.value.value)];
          contentObjects := contentObjects + [TextContent(sectionInfo + "Image description " + pageInfo + ": " + Str(hit.content))];
          imageCount := imageCount + 1;
        }
      } else if IsImageHit(hit, includeImages) {
        textContent := textContent + [sectionInfo + "[Image - Limit reached] " + pageInfo + "\n" + Str(hit.content)];
      } else {
        textContent := textContent + [sectionInfo + Str(hit.content) + " " + pageInfo];
      }
    }
    assert hits[..|hits|] == hits;
  }

  /** The image cap holds: never more images than `max_images` (none when it is not
      positive, none when images are not requested), each image object followed by its
      description, and one or two lines of text per hit. */
  lemma {:induction false} RenderAllInvariant(hits: seq<HitData>, includeImages: bool, maxImages: int, fetch: Fetch)
    ensures var r := RenderAll(hits, includeImages, maxImages, fetch);
      0 <= r.imageCount && (r.imageCount <= maxImages || r.imageCount == 0) &&
      (!includeImages ==> r.imageCount == 0) &&
      |r.objects| == 2 * r.imageCount &&
      (forall k :: 0 <= k < r.imageCount ==> r.objects[2 * k].ImageContent? && r.objects[2 * k + 1].TextContent?) &&
      |hits| <= |r.text| <= 2 * |hits|
    decreases |hits|
  {
    if hits != [] {
      RenderAllInvariant(hits[..|hits| - 1], includeImages, maxImages, fetch);
      var prev := RenderAll(hits[..|hits| - 1], includeImages, maxImages, fetch);
      var r := RenderAll(hits, includeImages, maxImages, fetch);
      if r.imageCount != prev.imageCount {
        forall k | 0 <= k < r.imageCount
          ensures r.objects[2 * k].ImageContent? && r.objects[2 * k + 1].TextContent?
        {
          if k < prev.imageCount {
            assert r.objects[2 * k] == prev.objects[2 * k] && r.objects[2 * k + 1] == prev.objects[2 * k + 1];
          }
        }
      }
    }
  }

  // ----- retrieval -----

  const Instruction := "When responding to the query, carefully assess the relevance of any retrieved content, especially images. " +
    "Only reference and describe images that are directly relevant to the user's query. " +
    "For images that appear tangential or unrelated to the specific question, omit them from your response. " +
    "Prioritize textual information that answers the query directly, and use images as supporting evidence " +
    "only when they provide significant additional context or clarification. " +
    "If no retrieved content adequately addresses the query, acknowledge this limitation clearly."

  /** The note appended when the image limit was reached and an image hit lies among
      `hits[max_images:top_k]`. */
  predicate NoteNeeded(sorted: seq<HitData>, topK: int, imageCount: int, maxImages: int)
  {
    imageCount >= maxImages && exists h :: h in Slice(sorted, maxImages, topK) && h.contentType == JStr("image")
  }

  function LimitNote(maxImages: int): string
  {
    "\n\nNote: Only showing " + IntText(maxImages) + " images due to limit. More images were found but not displayed."
  }

  /** The hits ordered by score, highest first, ties in search order. */
  function SortedHits(raw: seq<RawHit>): seq<HitData>
  {
    SortDesc(HitsData(raw), Score)
  }

  /** What `_retrieve_content` returns for the search's hits: the text and the content
      objects. */
  function RetrievedContent(raw: seq<RawHit>, topK: int, includeImages: bool, maxImages: int, fetch: Fetch): (string, seq<ContentObject>)
  {
    var sorted := SortedHits(raw);
    var r := RenderAll(Take(sorted, topK), includeImages, maxImages, fetch);
    var text := r.text + (if NoteNeeded(sorted, topK, r.imageCount, maxImages) then [LimitNote(maxImages)] else []);
    (Join("\n\n", text) + "\n\n" + Instruction, r.objects)
  }

  /** What `_retrieve_content` gives for the search's hits: the `TypeError` of the sort,
      or the rendered text and content objects. */
  function RetrieveHits(raw: seq<RawHit>, topK: int, includeImages: bool, maxImages: int, fetch: Fetch)
    : Result<(string, seq<ContentObject>)>
  {
    if SortRaises(HitsData(raw)) then Failure("TypeError")
    else Success(RetrievedContent(raw, topK, includeImages, maxImages, fetch))
  }

  /** The part of `_retrieve_content` after the search, step by step. */
  method RenderHits(raw: seq<RawHit>, topK: int, includeImages: bool, maxImages: int, fetch: Fetch)
    returns (r: Result<(string, seq<ContentObject>)>)
    ensures r == RetrieveHits(raw, topK, includeImages, maxImages, fetch)
  {
    var hits := ExtractHits(raw);
    assert hits == HitsData(raw);
    if SortRaises(hits) {
      return Failure("TypeError");
    }
    hits := SortDesc(hits, Score);
    assert hits == SortedHits(raw);
    var textContent, contentObjects, imageCount := AssembleContent(Take(hits, topK), includeImages, maxImages, fetch);
    if NoteNeeded(hits, topK, imageCount, maxImages) {
      textContent := textContent + [LimitNote(maxImages)];
    }
    assert textContent == RenderAll(Take(hits, topK), includeImages, maxImages, fetch).text +
      (if NoteNeeded(hits, topK, imageCount, maxImages) then [LimitNote(maxImages)] else []);
    var combinedText := Join("\n\n", textContent) + "\n\n" + Instruction;
    return Success((combinedText, contentObjects));
  }

  /** `_fetch_and_encode_image(image_url)`: nothing for an empty URL, `AttributeError` for
      one that is not a string, otherwise what downloading the assembled URL gives. */
  function FetchAndEncode(imageUrl: Json, s: Settings, env: Env, download: string -> Option<string>): Result<Option<string>>
  {
    if !IsTruthy(imageUrl) then Success(None)
    else if !imageUrl.JStr? then Failure("AttributeError")
    else
      match ImageUrl(imageUrl.s, s, env)
      case Failure(e) => Failure(e)
      case Success(url) => Success(download(url))
  }

  /** `_retrieve_content(query, top_k, include_images)`: the text and content objects, or
      the exception raised. */
  function Retrieve(body: Fields, topK: int, includeImages: bool, s: Settings, env: Env,
                    search: (Fields, nat) -> Attempt<seq<RawHit>>, download: string -> Option<string>)
    : Result<(string, seq<ContentObject>)>
  {
    match QueryBody(body, includeImages)
    case Failure(e) => Failure(e)
    case Success(sent) => SearchAndRender(sent, topK, includeImages, s, env, search, download)
  }

  /** The part of `_retrieve_content` from the search on, for the body sent. */
  function SearchAndRender(sent: Fields, topK: int, includeImages: bool, s: Settings, env: Env,
                           search: (Fields, nat) -> Attempt<seq<RawHit>>, download: string -> Option<string>)
    : Result<(string, seq<ContentObject>)>
  {
    match SearchFrom(0, s.maxRetries, n => search(sent, n))
    case Retrieved(raw) => RetrieveHits(raw, topK, includeImages, s.maxImages, u => FetchAndEncode(u, s, env, download))
    case TimeoutRaised => Failure("TimeoutError")
    case SearchRaised(m) => Failure(m)
    case NoResults => Failure("Failed to retrieve Elasticsearch query results.")
  }

  const NoInformation := "No relevant information found in the documents."
  const Header := "## Retrieved Document Content ##\n\n"

  /** `parse_output(output)`. */
  function ParseOutput(output: string): string
  {
    if output == "" then NoInformation else Header + output
  }

  /** `ToolResponse`: the result text and the context holding the content objects. */
  datatype ToolResponse = ToolResponse(result: string, contentObjects: Option<seq<ContentObject>>)

  /** `kwargs.get('include_images', True)` as the later tests `if not include_images`
      and `... and include_images and ...` read it: images are wanted unless the argument
      is given and falsy. */
  function IncludeFlag(includeImages: Option<Json>): bool
  {
    if includeImages.Some? then IsTruthy(includeImages.value) else true
  }

  /** `execute(query=..., include_images=...)`; `build` is the query builder. */
  function Execute(query: Option<string>, includeImages: Option<Json>, s: Settings, env: Env,
                   build: string -> Fields, search: (Fields, nat) -> Attempt<seq<RawHit>>,
                   download: string -> Option<string>): Result<ToolResponse>
  {
    var q := query.GetOr("");
    if q == "" then Failure("The 'query' parameter is required.")
    else
      match Retrieve(build(q), s.topK, IncludeFlag(includeImages), s, env, search, download)
      case Failure(e) => Failure(e)
      case Success((text, objects)) => Success(ToolResponse(ParseOutput(text), if objects != [] then Some(objects) else None))
  }

  // ----- properties -----

  /** Empty output gives the fixed message; any other output follows the header. */
  lemma {:induction false} ParseOutputShape(output: string)
    ensures output == "" ==> ParseOutput(output) == NoInformation
    ensures output != "" ==>
      |ParseOutput(output)| == |Header| + |output| &&
      ParseOutput(output)[..|Header|] == Header && ParseOutput(output)[|Header|..] == output
  {
  }

  /** An empty or missing query is refused before anything is searched. */
  lemma {:induction false} EmptyQueryRefused(query: Option<string>, includeImages: Option<Json>, s: Settings, env: Env,
                          build: string -> Fields, search: (Fields, nat) -> Attempt<seq<RawHit>>,
                          download: string -> Option<string>)
    requires query.None? || query.value == ""
    ensures Execute(query, includeImages, s, env, build, search, download) == Failure("The 'query' parameter is required.")
  {
  }

  /** Images are included unless the caller says otherwise: a missing argument acts as
      `True`, and an explicit `None` (or any other falsy value) as `False`. */
  lemma {:induction false} IncludeImagesDefault(query: Option<string>, s: Settings, env: Env,
                             build: string -> Fields, search: (Fields, nat) -> Attempt<seq<RawHit>>,
                             download: string -> Option<string>)
    ensures Execute(query, None, s, env, build, search, download) ==
      Execute(query, Some(JBool(true)), s, env, build, search, download)
    ensures Execute(query, Some(JNull), s, env, build, search, download) ==
      Execute(query, Some(JBool(false)), s, env, build, search, download)
  {
  }

  /** Without images the search gets the filtered body and the response has no content
      objects. */
  lemma {:induction false} ExcludedImagesNoObjects(query: string, s: Settings, env: Env,
                                build: string -> Fields, search: (Fields, nat) -> Attempt<seq<RawHit>>,
                                download: string -> Option<string>)
    requires query != ""
    requires Execute(Some(query), Some(JBool(false)), s, env, build, search, download).Success?
    ensures ExcludeImages(build(query)).Success?
    ensures Execute(Some(query), Some(JBool(false)), s, env, build, search, download).value.contentObjects.None?
  {
    var raw := RetrievedFrom(build(query), s.topK, false, s, env, search, download);
    var fetch := u => FetchAndEncode(u, s, env, download);
    RenderAllInvariant(Take(SortedHits(raw), s.topK), false, s.maxImages, fetch);
  }

  /** `execute` never takes `parse_output`'s empty branch: a successful answer is always
      the header, the rendered hits, a blank line and the instruction. */
  lemma {:induction false} ExecuteAlwaysWraps(query: Option<string>, includeImages: Option<Json>, s: Settings, env: Env,
                           build: string -> Fields, search: (Fields, nat) -> Attempt<seq<RawHit>>,
                           download: string -> Option<string>)
    requires Execute(query, includeImages, s, env, build, search, download).Success?
    ensures exists body: string ::
      Execute(query, includeImages, s, env, build, search, download).value.result == Header + (body + "\n\n" + Instruction)
  {
    var q := query.GetOr("");
    var raw := RetrievedFrom(build(q), s.topK, IncludeFlag(includeImages), s, env, search, download);
    var body := ContentBody(raw, s.topK, IncludeFlag(includeImages), s.maxImages, u => FetchAndEncode(u, s, env, download));
  }

  /** A successful retrieval renders the hits some search attempt returned. */
  lemma {:induction false} RetrievedFrom(body: Fields, topK: int, includeImages: bool, s: Settings, env: Env,
                      search: (Fields, nat) -> Attempt<seq<RawHit>>, download: string -> Option<string>)
    returns (raw: seq<RawHit>)
    requires Retrieve(body, topK, includeImages, s, env, search, download).Success?
    ensures Retrieve(body, topK, includeImages, s, env, search, download) ==
      Success(RetrievedContent(raw, topK, includeImages, s.maxImages, u => FetchAndEncode(u, s, env, download)))
  {
    raw := SearchedFrom(QueryBody(body, includeImages).value, topK, includeImages, s, env, search, download);
  }

  /** A successful search and rendering renders the hits some search attempt returned. */
  lemma {:induction false} SearchedFrom(sent: Fields, topK: int, includeImages: bool, s: Settings, env: Env,
                      search: (Fields, nat) -> Attempt<seq<RawHit>>, download: string -> Option<string>)
    returns (raw: seq<RawHit>)
    requires SearchAndRender(sent, topK, includeImages, s, env, search, download).Success?
    ensures SearchAndRender(sent, topK, includeImages, s, env, search, download) ==
      Success(RetrievedContent(raw, topK, includeImages, s.maxImages, u => FetchAndEncode(u, s, env, download)))
  {
    raw := SearchFrom(0, s.maxRetries, n => search(sent, n)).results;
  }

  /** The sort raises exactly when two or more hits came back and one of them has a null
      `_score`; a lone hit is never compared. */
  lemma {:induction false} NullScoreRaises(raw: seq<RawHit>, topK: int, includeImages: bool, maxImages: int, fetch: Fetch)
    ensures RetrieveHits(raw, topK, includeImages, maxImages, fetch).Failure? <==>
      |raw| >= 2 && exists i :: 0 <= i < |raw| && raw[i].score.None?
    ensures RetrieveHits(raw, topK, includeImages, maxImages, fetch).Failure? ==>
      RetrieveHits(raw, topK, includeImages, maxImages, fetch).error == "TypeError"
  {
    var hits := HitsData(raw);
    forall i | 0 <= i < |raw|
      ensures hits[i].score == raw[i].score
    {
      assert hits[i] == HitDataOf(raw[i]);
    }
  }

  /** `execute` raises the sort's `TypeError` exactly when the search returned two or
      more hits, one of them with a null `_score`. */
  lemma {:induction false} ExecuteNullScore(query: string, includeImages: Option<Json>, s: Settings, env: Env,
                           build: string -> Fields, search: (Fields, nat) -> Attempt<seq<RawHit>>,
                           download: string -> Option<string>, sent: Fields, raw: seq<RawHit>)
    requires query != ""
    requires QueryBody(build(query), IncludeFlag(includeImages)) == Success(sent)
    requires SearchFrom(0, s.maxRetries, n => search(sent, n)) == Retrieved(raw)
    ensures Execute(Some(query), includeImages, s, env, build, search, download).Failure? <==>
      |raw| >= 2 && exists i :: 0 <= i < |raw| && raw[i].score.None?
    ensures Execute(Some(query), includeImages, s, env, build, search, download).Failure? ==>
      Execute(Some(query), includeImages, s, env, build, search, download).error == "TypeError"
  {
    NullScoreRaises(raw, s.topK, IncludeFlag(includeImages), s.maxImages, u => FetchAndEncode(u, s, env, download));
  }

  /** The retrieved content always ends with a blank line and the instruction. */
  lemma {:induction false} ContentBody(raw: seq<RawHit>, topK: int, includeImages: bool, maxImages: int, fetch: Fetch) returns (body: string)
    ensures RetrievedContent(raw, topK, includeImages, maxImages, fetch).0 == body + "\n\n" + Instruction
  {
    var sorted := SortedHits(raw);
    var r := RenderAll(Take(sorted, topK), includeImages, maxImages, fetch);
    var text := r.text + (if NoteNeeded(sorted, topK, r.imageCount, maxImages) then [LimitNote(maxImages)] else []);
    body := Join("\n\n", text);
  }

  /** The hits are ordered by score before `top_k` of them are shown: every shown hit
      scores at least as high as every hit left out, and hits of equal score keep the
      order the search returned them in. */
  lemma {:induction false} ShownHitsTopScored(raw: seq<RawHit>, topK: int)
    ensures var sorted := SortedHits(raw);
      |sorted| == |raw| &&
      (forall k :: WithScore(sorted, Score, k) == WithScore(HitsData(raw), Score, k)) &&
      Take(sorted, topK) == sorted[..SliceBound(sorted, topK)] &&
      forall i, j :: 0 <= i < SliceBound(sorted, topK) <= j < |sorted| ==> Score(sorted[i]) >= Score(sorted[j])
  {
    SortDescProperties(HitsData(raw), Score);
  }

  /** Two hits already in descending score order stay as they are. */
  lemma {:induction false} SortedPair(first: HitData, second: HitData)
    requires Score(first) >= Score(second)
    ensures SortDesc([first, second], Score) == [first, second]
  {
    assert [first, second][..1] == [first] && [first][..0] == [] && [first][1..] == [];
    assert SortDesc([first], Score) == Insert([], first, Score) == [first];
    assert Insert([first], second, Score) == [first] + Insert([], second, Score) == [first, second];
    assert SortDesc([first, second], Score) == Insert(SortDesc([first], Score), second, Score);
  }

  /** The limit note counts positions, not hidden images: with `max_images` 1, a text hit
      followed by a lower-scored image hit that is fetched shows that image and still says
      that more images were found. */
  lemma {:induction false} NoteWithoutHiddenImage(text: HitData, image: HitData, fetch: Fetch, topK: int)
    requires text.score.Some? && image.score.Some? && text.score.value >= image.score.value
    requires text.contentType != JStr("image")
    requires IsImageHit(image, true) && fetch(image.imageUrl).Success?
    requires fetch(image.imageUrl).value.Some? && fetch(image.imageUrl).value.value != ""
    requires topK >= 2
    ensures var sorted := SortDesc([text, image], Score);
      var r := RenderAll(Take(sorted, topK), true, 1, fetch);
      sorted == [text, image] && r.imageCount == 1 && |r.objects| == 2 && r.objects[0].ImageContent? &&
      NoteNeeded(sorted, topK, r.imageCount, 1)
  {
    SortedPair(text, image);
    var sorted := SortDesc([text, image], Score);
    assert Take(sorted, topK) == sorted;
    var empty := RenderAll([], true, 1, fetch);
    assert empty == Rendering([], [], 0);
    var r0 := RenderAll([text], true, 1, fetch);
    assert r0 == RenderHit(empty, text, true, 1, fetch);
    assert !IsImageHit(text, true);
    assert r0.imageCount == 0 && r0.objects == [];
    var r := RenderAll([text, image], true, 1, fetch);
    assert r == RenderHit(r0, image, true, 1, fetch);
    assert Slice(sorted, 1, topK) == [image];
  }
}
