/**
 * The client's URI builder (`_create_uri`) and base-URI formatting
 * (`base_uri_pattern.format(host=..., port=...)`) in
 * pywebhdfs/tornado/webhdfs.py.
 *
 * A request URI is
 *   base_uri ++ path ++ "?op=" ++ OP ++ ("&" ++ key ++ "=" ++ lower(str(value)))* ++ ["&user.name=" ++ user]
 * with nothing escaped and no '/' inserted between the base URI and the path.
 */
module Uri {
  import opened Wrappers
  import opened Strings

  /** A keyword argument's value as the caller passes it; `str()` renders it. */
  datatype ArgValue = BoolArg(b: bool) | IntArg(i: int) | StrArg(s: string) | NoneArg

  /** Keyword arguments in the order the dictionary iterates them. */
  type Kwargs = seq<(string, ArgValue)>

  /** The default `base_uri_pattern`, `http://{host}:{port}/webhdfs/v1/`, written in its pieces. */
  const DEFAULT_BASE_URI_PATTERN: string := "http://" + "{host}" + ":" + "{port}" + "/webhdfs/v1/"
  const USER_NAME_KEY: string := "user.name"

  /** Python's `str(value)`. */
  function PyStr(v: ArgValue): string
  {
    match v
    case BoolArg(b) => if b then "True" else "False"
    case IntArg(i) => IntToString(i)
    case StrArg(s) => s
    case NoneArg => "None"
  }

  /** What the URI carries for a keyword value: `str(value).lower()`. */
  function ParamValue(v: ArgValue): string
  {
    LowerStr(PyStr(v))
  }

  function KeywordParam(key: string, v: ArgValue): string
  {
    "&" + key + "=" + ParamValue(v)
  }

  /** The accumulator `keyword_params` after the loop has visited every entry of `kw`. */
  function KeywordParams(kw: Kwargs): string
    decreases |kw|
  {
    if kw == [] then ""
    else KeywordParams(kw[..|kw| - 1]) + KeywordParam(kw[|kw| - 1].0, kw[|kw| - 1].1)
  }

  /** `if self.user_name:` -- None and the empty string are false. */
  predicate Truthy(user: Option<string>)
  {
    user.Some? && user.value != ""
  }

  function UserParam(user: Option<string>): string
  {
    if Truthy(user) then "&" + USER_NAME_KEY + "=" + user.value else ""
  }

  function OperationParam(op: string): string
  {
    "?op=" + op
  }

  /** The complete URI `_create_uri` returns. */
  function BuildUri(base: string, path: string, op: string, kw: Kwargs, user: Option<string>): string
  {
    base + path + OperationParam(op) + KeywordParams(kw) + UserParam(user)
  }

  // ----- Independent reading of a URI: the query as '&'-separated fields -----

  function KeywordFields(kw: Kwargs): (fs: seq<string>)
    ensures |fs| == |kw|
    ensures forall i :: 0 <= i < |kw| ==> fs[i] == kw[i].0 + "=" + ParamValue(kw[i].1)
  {
    seq(|kw|, i requires 0 <= i < |kw| => kw[i].0 + "=" + ParamValue(kw[i].1))
  }

  function UserFields(user: Option<string>): seq<string>
  {
    if Truthy(user) then [USER_NAME_KEY + "=" + user.value] else []
  }

  /** The fields of the query string in order: the operation, each keyword argument, the user. */
  function QueryFields(op: string, kw: Kwargs, user: Option<string>): seq<string>
  {
    ["op=" + op] + KeywordFields(kw) + UserFields(user)
  }

  /** No component that ends up in the query contains the field separator '&'. */
  predicate AmpersandFree(op: string, kw: Kwargs, user: Option<string>)
  {
    && '&' !in op
    && (forall i :: 0 <= i < |kw| ==> '&' !in kw[i].0 && '&' !in PyStr(kw[i].1))
    && (user.Some? ==> '&' !in user.value)
  }

  lemma {:induction false} KeywordFieldsSnoc(kw: Kwargs)
    requires kw != []
    ensures KeywordFields(kw) == KeywordFields(kw[..|kw| - 1]) + [kw[|kw| - 1].0 + "=" + ParamValue(kw[|kw| - 1].1)]
  {
  }

  lemma ConcatStep(a: string, p: string, q: string, j: string, sep: char, f: string)
    requires a + p == j && q == [sep] + f
    ensures a + (p + q) == j + [sep] + f
  {
  }

  lemma {:induction false} KeywordParamsAsFields(op: string, kw: Kwargs)
    ensures "op=" + op + KeywordParams(kw) == Join('&', ["op=" + op] + KeywordFields(kw))
    decreases |kw|
  {
    var a := "op=" + op;
    if kw == [] {
      assert [a] + KeywordFields(kw) == [a];
    } else {
      var init := kw[..|kw| - 1];
      var key, v := kw[|kw| - 1].0, kw[|kw| - 1].1;
      var f := key + "=" + ParamValue(v);
      var head := [a] + KeywordFields(init);
      KeywordParamsAsFields(op, init);
      KeywordFieldsSnoc(kw);
      KeywordParamField(key, v);
      ParamsStep(a, KeywordParams(init), KeywordParams(kw), KeywordParam(key, v), head, f, [a] + KeywordFields(kw));
    }
  }

  lemma KeywordParamField(key: string, v: ArgValue)
    ensures KeywordParam(key, v) == ['&'] + (key + "=" + ParamValue(v))
  {
  }

  /** One step of the accumulation: appending `&f` to the text appends the field `f` to the join. */
  lemma ParamsStep(a: string, kpInit: string, kp: string, param: string, head: seq<string>, f: string,
                   fields: seq<string>)
    requires |head| > 0
    requires a + kpInit == Join('&', head)
    requires kp == kpInit + param
    requires param == ['&'] + f
    requires fields == head + [f]
    ensures a + kp == Join('&', fields)
  {
    JoinSnoc('&', head, f);
    ConcatStep(a, kpInit, param, Join('&', head), '&', f);
  }

  lemma AppendQuery(b: string, p: string, opp: string, a: string, k: string, x: string, j: string)
    requires opp == "?" + a
    requires j == a + k + x
    ensures b + p + opp + k + x == b + p + "?" + j
  {
  }

  /** The query after '?' is the '&'-join of the query fields. */
  lemma QueryJoin(op: string, kw: Kwargs, user: Option<string>)
    ensures "op=" + op + KeywordParams(kw) + UserParam(user) == Join('&', QueryFields(op, kw, user))
  {
    KeywordParamsAsFields(op, kw);
    UserPieces(user);
    JoinUserFields("op=" + op, KeywordParams(kw), ["op=" + op] + KeywordFields(kw), UserFields(user), UserParam(user));
  }

  /** `auth_param` is '&' before the one user field, or empty when there is none. */
  lemma UserPieces(user: Option<string>)
    ensures || (UserFields(user) == [] && UserParam(user) == [])
            || (|UserFields(user)| == 1 && UserParam(user) == ['&'] + UserFields(user)[0])
  {
    if Truthy(user) {
      assert UserParam(user) == ['&'] + (USER_NAME_KEY + "=" + user.value);
    }
  }

  lemma JoinUserFields(a: string, kp: string, head: seq<string>, uf: seq<string>, up: string)
    requires |head| > 0
    requires a + kp == Join('&', head)
    requires || (uf == [] && up == [])
             || (|uf| == 1 && up == ['&'] + uf[0])
    ensures a + kp + up == Join('&', head + uf)
  {
    if uf == [] {
      assert head + uf == head;
      assert a + kp + up == a + kp;
    } else {
      assert uf == [uf[0]];
      JoinSnoc('&', head, uf[0]);
      ConcatStep(a, kp, up, Join('&', head), '&', uf[0]);
    }
  }

  /** The URI is the base URI, the path verbatim, '?', and the query fields joined by '&'. */
  lemma UriDecomposition(base: string, path: string, op: string, kw: Kwargs, user: Option<string>)
    ensures BuildUri(base, path, op, kw, user) == base + path + "?" + Join('&', QueryFields(op, kw, user))
  {
    var j := Join('&', QueryFields(op, kw, user));
    var a, k, x := "op=" + op, KeywordParams(kw), UserParam(user);
    QueryJoin(op, kw, user);
    assert a + k + x == j;
    assert OperationParam(op) == "?" + a;
    AppendQuery(base, path, OperationParam(op), a, k, x, j);
  }


  lemma FieldsAmpersandFree(op: string, kw: Kwargs, user: Option<string>)
    requires AmpersandFree(op, kw, user)
    ensures forall k :: 0 <= k < |QueryFields(op, kw, user)| ==> '&' !in QueryFields(op, kw, user)[k]
  {
    FieldFree("op", op);
    KeywordFieldsFree(kw);
    UserFieldsFree(user);
    ConcatFree(["op=" + op], KeywordFields(kw));
    ConcatFree(["op=" + op] + KeywordFields(kw), UserFields(user));
  }

  /** No field of the list holds an '&'. */
  predicate FieldsFree(fs: seq<string>)
  {
    forall k :: 0 <= k < |fs| ==> '&' !in fs[k]
  }

  lemma ConcatFree(a: seq<string>, b: seq<string>)
    requires FieldsFree(a) && FieldsFree(b)
    ensures FieldsFree(a + b)
  {
    forall k | 0 <= k < |a + b| ensures '&' !in (a + b)[k] {
      if k < |a| {
        assert (a + b)[k] == a[k];
      } else {
        assert (a + b)[k] == b[k - |a|];
      }
    }
  }

  lemma KeywordFieldsFree(kw: Kwargs)
    requires forall i :: 0 <= i < |kw| ==> '&' !in kw[i].0 && '&' !in PyStr(kw[i].1)
    ensures FieldsFree(KeywordFields(kw))
  {
    var fs := KeywordFields(kw);
    forall k | 0 <= k < |fs| ensures '&' !in fs[k] {
      LowerStrKeepsAbsent('&', PyStr(kw[k].1));
      FieldFree(kw[k].0, ParamValue(kw[k].1));
    }
  }

  lemma UserFieldsFree(user: Option<string>)
    requires user.Some? ==> '&' !in user.value
    ensures FieldsFree(UserFields(user))
  {
    if user.Some? {
      FieldFree(USER_NAME_KEY, user.value);
    }
  }

  /** A field `name=value` has no '&' when neither side has one. */
  lemma FieldFree(name: string, value: string)
    requires '&' !in name && '&' !in value
    ensures '&' !in name + "=" + value
  {
    var f := name + "=" + value;
    forall i | 0 <= i < |f| ensures f[i] != '&' {
      if i < |name| {
        assert f[i] == name[i];
      } else if i > |name| {
        assert f[i] == value[i - |name| - 1];
      }
    }
  }

  lemma SplitUri(pre: string, query: string, n: nat)
    requires n == |pre|
    ensures var uri := pre + "?" + query; |uri| > n && uri[..n] == pre && uri[n] == '?' && uri[n + 1..] == query
  {
  }

  /**
   * Reading the URI back: after `base ++ path ++ "?"`, splitting on '&' gives
   * the operation field first, then exactly one field `key=lower(str(value))`
   * per keyword argument in order, then a `user.name` field if and only if a
   * user name is configured, and nothing else.
   */
  lemma ParseQuery(base: string, path: string, op: string, kw: Kwargs, user: Option<string>)
    requires AmpersandFree(op, kw, user)
    ensures var uri := BuildUri(base, path, op, kw, user);
      var n := |base| + |path|;
      var fs := Split('&', uri[n + 1..]);
      && |uri| > n && uri[..n] == base + path && uri[n] == '?'
      && fs == QueryFields(op, kw, user)
      && fs[0] == "op=" + op
      && fs[1..|kw| + 1] == KeywordFields(kw)
      && (Truthy(user) <==> |fs| == |kw| + 2)
      && (Truthy(user) ==> fs[|kw| + 1] == USER_NAME_KEY + "=" + user.value)
  {
    UriDecomposition(base, path, op, kw, user);
    var fs := QueryFields(op, kw, user);
    SplitUri(base + path, Join('&', fs), |base| + |path|);
    FieldsAmpersandFree(op, kw, user);
    SplitJoin('&', fs);
    assert fs[1..|kw| + 1] == KeywordFields(kw);
  }

  /** The `k`-th '&'-separated field of the query of `uri`, whose '?' is at position `n`. */
  function QueryFieldAt(uri: string, n: nat, k: nat): Option<string>
  {
    if |uri| > n && k < |Split('&', uri[n + 1..])| then Some(Split('&', uri[n + 1..])[k]) else None
  }

  /** `recursive=True` is written `&recursive=true`: booleans are lower-cased. */
  lemma BoolParam(key: string, b: bool)
    ensures KeywordParam(key, BoolArg(b)) == "&" + key + "=" + (if b then "true" else "false")
  {
    if b {
      assert LowerStr("True") == "true" by { assert forall i :: 0 <= i < 4 ==> LowerStr("True")[i] == "true"[i]; }
    } else {
      assert LowerStr("False") == "false" by { assert forall i :: 0 <= i < 5 ==> LowerStr("False")[i] == "false"[i]; }
    }
  }

  /** Integers pass through lower-casing unchanged. */
  lemma IntParam(key: string, i: int)
    ensures KeywordParam(key, IntArg(i)) == "&" + key + "=" + IntToString(i)
  {
    LowerStrFixed(IntToString(i));
  }

  /**
   * String values are lower-cased too: what is sent is the lower-cased value,
   * and it differs from the value exactly when the value has a capital letter.
   */
  lemma StrParamLowered(key: string, s: string)
    ensures KeywordParam(key, StrArg(s)) == "&" + key + "=" + LowerStr(s)
    ensures LowerStr(s) != s <==> exists i :: 0 <= i < |s| && 'A' <= s[i] <= 'Z'
  {
    LowerStrChangesIff(s);
  }


  // ----- Keyword argument dictionaries -----

  predicate HasKey(kw: Kwargs, key: string)
  {
    exists i :: 0 <= i < |kw| && kw[i].0 == key
  }

  predicate DistinctKeys(kw: Kwargs)
  {
    forall i, j :: 0 <= i < j < |kw| ==> kw[i].0 != kw[j].0
  }

  function Get(kw: Kwargs, key: string): (r: Option<ArgValue>)
    ensures r.None? <==> !HasKey(kw, key)
    decreases |kw|
  {
    if kw == [] then None
    else if kw[0].0 == key then Some(kw[0].1)
    else
      assert forall i :: 1 <= i < |kw| ==> kw[i] == kw[1..][i - 1];
      Get(kw[1..], key)
  }

  /** `d[key] = v`: an existing key keeps its place and takes the new value; a new key goes last. */
  function Put(kw: Kwargs, key: string, v: ArgValue): Kwargs
    decreases |kw|
  {
    if kw == [] then [(key, v)]
    else if kw[0].0 == key then [(key, v)] + kw[1..]
    else [kw[0]] + Put(kw[1..], key, v)
  }

  lemma {:induction false} PutFound(kw: Kwargs, key: string, v: ArgValue)
    ensures Get(Put(kw, key, v), key) == Some(v)
    decreases |kw|
  {
    if kw != [] && kw[0].0 != key {
      PutFound(kw[1..], key, v);
      assert ([kw[0]] + Put(kw[1..], key, v))[1..] == Put(kw[1..], key, v);
    }
  }

  lemma {:induction false} PutOther(kw: Kwargs, key: string, v: ArgValue, other: string)
    requires other != key
    ensures Get(Put(kw, key, v), other) == Get(kw, other)
    decreases |kw|
  {
    if kw == [] {
      assert [(key, v)][1..] == [];
    } else if kw[0].0 == key {
      assert ([(key, v)] + kw[1..])[1..] == kw[1..];
    } else {
      PutOther(kw[1..], key, v, other);
      assert ([kw[0]] + Put(kw[1..], key, v))[1..] == Put(kw[1..], key, v);
    }
  }

  lemma {:induction false} PutKeys(kw: Kwargs, key: string, v: ArgValue)
    requires DistinctKeys(kw)
    ensures DistinctKeys(Put(kw, key, v))
    ensures |Put(kw, key, v)| == if HasKey(kw, key) then |kw| else |kw| + 1
    ensures forall k :: HasKey(Put(kw, key, v), k) ==> k == key || HasKey(kw, k)
    decreases |kw|
  {
    if kw != [] {
      var tail := kw[1..];
      assert forall i :: 1 <= i < |kw| ==> kw[i] == tail[i - 1];
      if kw[0].0 == key {
        var r := [(key, v)] + tail;
        assert forall i :: 1 <= i < |r| ==> r[i] == kw[i];
        assert HasKey(kw, key);
        forall k | HasKey(r, k) ensures k == key || HasKey(kw, k) {
          var i :| 0 <= i < |r| && r[i].0 == k;
          if i > 0 { assert kw[i].0 == k; }
        }
      } else {
        PutKeys(tail, key, v);
        var p := Put(tail, key, v);
        var r := [kw[0]] + p;
        assert forall i :: 1 <= i < |r| ==> r[i] == p[i - 1];
        assert HasKey(kw, key) <==> HasKey(tail, key);
        assert !HasKey(tail, kw[0].0);
        assert !HasKey(p, kw[0].0);
        forall k | HasKey(r, k) ensures k == key || HasKey(kw, k) {
          var i :| 0 <= i < |r| && r[i].0 == k;
          if i > 0 {
            assert HasKey(p, k);
            if k != key {
              var j :| 0 <= j < |tail| && tail[j].0 == k;
              assert kw[j + 1].0 == k;
            }
          }
        }
      }
    }
  }

  /** After `d[key] = v`, `d[key]` is `v`, every other key is as before, and keys stay distinct. */
  lemma PutGet(kw: Kwargs, key: string, v: ArgValue, other: string)
    requires DistinctKeys(kw)
    ensures Get(Put(kw, key, v), key) == Some(v)
    ensures other != key ==> Get(Put(kw, key, v), other) == Get(kw, other)
    ensures DistinctKeys(Put(kw, key, v))
    ensures |Put(kw, key, v)| == if HasKey(kw, key) then |kw| else |kw| + 1
  {
    PutFound(kw, key, v);
    if other != key {
      PutOther(kw, key, v, other);
    }
    PutKeys(kw, key, v);
  }

  /** Names `_create_uri` binds itself, so a keyword argument of one of them is a duplicate. */
  const RESERVED_NAMES: seq<string> := ["self", "path", "operation"]

  /**
   * The keyword arguments `_create_uri` receives from a call
   * `self._create_uri(path, OP, k1=v1, ..., **kwargs)`: the explicit ones
   * first, then `kwargs`. Python rejects the call with a TypeError (None here)
   * when `kwargs` repeats an explicit keyword or one of the reserved names.
   */
  function CallArgs(explicit: Kwargs, kw: Kwargs): (r: Option<Kwargs>)
    ensures r.Some? <==> forall i :: 0 <= i < |kw| ==> kw[i].0 !in RESERVED_NAMES && !HasKey(explicit, kw[i].0)
    ensures r.Some? ==> r.value == explicit + kw
  {
    if exists i :: 0 <= i < |kw| && (kw[i].0 in RESERVED_NAMES || HasKey(explicit, kw[i].0)) then None
    else Some(explicit + kw)
  }

  /** A lookup in `a + b` finds the entry of `a` first. */
  lemma {:induction false} GetAppend(a: Kwargs, b: Kwargs, k: string)
    ensures Get(a + b, k) == if HasKey(a, k) then Get(a, k) else Get(b, k)
    decreases |a|
  {
    if a == [] {
      assert a + b == b;
    } else {
      assert (a + b)[1..] == a[1..] + b;
      if a[0].0 == k {
        assert HasKey(a, k);
      } else {
        assert forall i :: 1 <= i < |a| ==> a[i] == a[1..][i - 1];
        assert HasKey(a, k) <==> HasKey(a[1..], k);
        GetAppend(a[1..], b, k);
      }
    }
  }

  lemma DistinctAppend(a: Kwargs, b: Kwargs)
    requires DistinctKeys(a) && DistinctKeys(b)
    requires forall i :: 0 <= i < |b| ==> !HasKey(a, b[i].0)
    ensures DistinctKeys(a + b)
  {
    var ab := a + b;
    forall i, j | 0 <= i < j < |ab| ensures ab[i].0 != ab[j].0 {
      if j >= |a| {
        assert ab[j] == b[j - |a|];
        if i >= |a| {
          assert ab[i] == b[i - |a|];
        } else {
          assert !HasKey(a, b[j - |a|].0);
          assert ab[i] == a[i];
        }
      }
    }
  }

  /**
   * What the merged arguments of a call mean: each explicit keyword keeps
   * its explicit value, every other key reads as in `**kwargs` (so no key
   * appears that neither side has), and when `kwargs` is a dictionary --
   * distinct keys -- every key reaches the URI exactly once.
   */
  lemma CallArgsMerge(explicit: Kwargs, kw: Kwargs)
    requires CallArgs(explicit, kw).Some?
    ensures var args := CallArgs(explicit, kw).value;
      && (DistinctKeys(explicit) && DistinctKeys(kw) ==> DistinctKeys(args))
      && (forall k :: HasKey(explicit, k) ==> Get(args, k) == Get(explicit, k))
      && (forall k :: !HasKey(explicit, k) ==> Get(args, k) == Get(kw, k))
  {
    var args := CallArgs(explicit, kw).value;
    forall k ensures Get(args, k) == if HasKey(explicit, k) then Get(explicit, k) else Get(kw, k) {
      GetAppend(explicit, kw, k);
    }
    if DistinctKeys(explicit) && DistinctKeys(kw) {
      DistinctAppend(explicit, kw);
    }
  }

  // ----- base_uri_pattern.format(host=host, port=port) -----

  predicate NoBraces(s: string)
  {
    '{' !in s && '}' !in s
  }

  function Prepend(a: string, r: Option<string>): Option<string>
  {
    if r.Some? then Some(a + r.value) else None
  }

  /** Index of the first '}' in `p` at or after `from`, or `|p|` when there is none. */
  function CloseBrace(p: string, from: nat): (j: nat)
    requires from <= |p|
    ensures from <= j <= |p|
    ensures forall k :: from <= k < j ==> p[k] != '}'
    ensures j < |p| ==> p[j] == '}'
    decreases |p| - from
  {
    if from == |p| || p[from] == '}' then from else CloseBrace(p, from + 1)
  }

  /**
   * `pattern.format(host=host, port=port)`. Literal text is copied, `{{` and
   * `}}` are single braces, `{host}` and `{port}` are replaced by the given
   * values. Every other replacement field, and an unmatched brace, makes
   * Python raise (None here).
   */
  function FormatBaseUri(p: string, host: string, port: string): (r: Option<string>)
    ensures NoBraces(p) ==> r == Some(p)
    decreases |p|
  {
    if p == [] then Some("")
    else if p[0] == '{' && |p| > 1 && p[1] == '{' then Prepend("{", FormatBaseUri(p[2..], host, port))
    else if p[0] == '}' && |p| > 1 && p[1] == '}' then Prepend("}", FormatBaseUri(p[2..], host, port))
    else if p[0] == '}' then None
    else if p[0] == '{' then
      var j := CloseBrace(p, 1);
      if j == |p| then None
      else if p[1..j] == "host" then Prepend(host, FormatBaseUri(p[j + 1..], host, port))
      else if p[1..j] == "port" then Prepend(port, FormatBaseUri(p[j + 1..], host, port))
      else None
    else
      assert p == [p[0]] + p[1..];
      Prepend([p[0]], FormatBaseUri(p[1..], host, port))
  }

  lemma PrependTwice(c: char, a: string, r: Option<string>)
    ensures Prepend([c], Prepend(a, r)) == Prepend([c] + a, r)
  {
    if r.Some? {
      assert [c] + (a + r.value) == ([c] + a) + r.value;
    }
  }

  lemma {:induction false} FormatLiteralPrefix(a: string, rest: string, host: string, port: string)
    requires NoBraces(a)
    ensures FormatBaseUri(a + rest, host, port) == Prepend(a, FormatBaseUri(rest, host, port))
    decreases |a|
  {
    if a == [] {
      assert a + rest == rest;
      var r := FormatBaseUri(rest, host, port);
      if r.Some? {
        assert a + r.value == r.value;
      }
    } else {
      var p := a + rest;
      assert a[0] in a;
      assert p[0] == a[0] && p[0] != '{' && p[0] != '}';
      assert p[1..] == a[1..] + rest;
      assert FormatBaseUri(p, host, port) == Prepend([a[0]], FormatBaseUri(a[1..] + rest, host, port));
      FormatLiteralPrefix(a[1..], rest, host, port);
      PrependTwice(a[0], a[1..], FormatBaseUri(rest, host, port));
      assert [a[0]] + a[1..] == a;
    }
  }

  lemma FormatField(name: string, value: string, rest: string, host: string, port: string)
    requires name == "host" || name == "port"
    requires value == if name == "host" then host else port
    ensures FormatBaseUri("{" + name + "}" + rest, host, port) == Prepend(value, FormatBaseUri(rest, host, port))
  {
    var p := "{" + name + "}" + rest;
    assert CloseBrace(p, 1) == 5 by {
      assert p[1..5] == name;
      assert p[5] == '}';
      assert forall k :: 1 <= k < 5 ==> p[k] != '}';
    }
    assert p[1..5] == name;
    assert p[6..] == rest;
  }

  lemma Assoc5(a: string, h: string, b: string, p: string, c: string)
    ensures a + h + b + p + c == a + (h + (b + (p + c)))
  {
  }

  lemma PrependConcat(a: string, b: string, r: Option<string>)
    ensures Prepend(a, Prepend(b, r)) == Prepend(a + b, r)
  {
    if r.Some? {
      assert a + (b + r.value) == (a + b) + r.value;
    }
  }

  /** A pattern with a `{host}` field and then a `{port}` field formats to the values in place. */
  lemma FormatHostPort(a: string, b: string, c: string, host: string, port: string)
    requires NoBraces(a) && NoBraces(b) && NoBraces(c)
    ensures FormatBaseUri(a + "{host}" + b + "{port}" + c, host, port) == Some(a + host + b + port + c)
  {
    var hf, pf := "{host}", "{port}";
    assert hf == "{" + "host" + "}";
    assert pf == "{" + "port" + "}";
    var y := pf + c;
    var tail := b + y;
    var x := hf + tail;
    Assoc5(a, hf, b, pf, c);
    FormatLiteralPrefix(a, x, host, port);
    FormatField("host", host, tail, host, port);
    FormatLiteralPrefix(b, y, host, port);
    FormatField("port", port, c, host, port);
    Assoc5(a, host, b, port, c);
  }

  /** The default pattern gives `http://<host>:<port>/webhdfs/v1/`. */
  lemma DefaultBaseUri(host: string, port: string)
    ensures FormatBaseUri(DEFAULT_BASE_URI_PATTERN, host, port) == Some("http://" + host + ":" + port + "/webhdfs/v1/")
  {
    var a, b, c := "http://", ":", "/webhdfs/v1/";
    assert NoBraces(a) && NoBraces(b);
    assert NoBraces(c) by {
      assert forall k :: 0 <= k < |c| ==> c[k] != '{' && c[k] != '}';
    }
    assert DEFAULT_BASE_URI_PATTERN == a + "{host}" + b + "{port}" + c;
    FormatHostPort("http://", ":", "/webhdfs/v1/", host, port);
  }

  /**
   * An unmatched brace after brace-free text makes formatting fail: a '}'
   * that does not start `}}`, whatever follows it, and a '{' that does not
   * start `{{` and is never closed.
   */
  lemma FormatRejectsUnmatched(a: string, rest: string, host: string, port: string)
    requires NoBraces(a)
    ensures (rest == [] || rest[0] != '}') ==> FormatBaseUri(a + "}" + rest, host, port) == None
    ensures ('}' !in rest && (rest == [] || rest[0] != '{')) ==> FormatBaseUri(a + "{" + rest, host, port) == None
  {
    var close, open := "}" + rest, "{" + rest;
    assert a + "}" + rest == a + close && a + "{" + rest == a + open;
    FormatLiteralPrefix(a, close, host, port);
    FormatLiteralPrefix(a, open, host, port);
  }
}
