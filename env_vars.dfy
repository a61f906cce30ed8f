/** Environment-variable maps: overlaying one map on another, single writes,
    and the ordered "write if named" bindings both bases apply. */
module EnvVars {
  import opened Wrappers

  type EnvMap = map<string, string>

  /** JavaScript truthiness of an optional string: present and non-empty. */
  predicate Truthy(name: Option<string>) {
    name.Some? && name.value != ""
  }

  /** `{...base, ...extra}`: the keys of both, values of `extra` winning. */
  function Overlay(base: EnvMap, extra: EnvMap): (r: EnvMap)
    ensures r.Keys == base.Keys + extra.Keys
    ensures forall k :: k in extra ==> r[k] == extra[k]
    ensures forall k :: k in base && k !in extra ==> r[k] == base[k]
  {
    base + extra
  }

  /** `env[name] = value`: only `name` changes. */
  function SetVar(env: EnvMap, name: string, value: string): (r: EnvMap)
    ensures r.Keys == env.Keys + {name}
    ensures r[name] == value
    ensures forall k :: k in env && k != name ==> r[k] == env[k]
  {
    env[name := value]
  }

  /** A collaborator's optional variable name and the value it writes. */
  datatype Binding = Binding(name: Option<string>, value: string)

  predicate Names(b: Binding, key: string) {
    Truthy(b.name) && b.name.value == key
  }

  /** `if (name) env[name] = value`. */
  function Bind(env: EnvMap, b: Binding): (r: EnvMap)
    ensures Truthy(b.name) ==> r == SetVar(env, b.name.value, b.value)
    ensures !Truthy(b.name) ==> r == env
  {
    if Truthy(b.name) then env[b.name.value := b.value] else env
  }

  /** The bindings applied one after another, first to last. */
  function ApplyBindings(env: EnvMap, bs: seq<Binding>): EnvMap
  {
    if bs == [] then env else Bind(ApplyBindings(env, bs[..|bs| - 1]), bs[|bs| - 1])
  }

  /** Applying `a + b` is applying `a`, then `b`. */
  lemma {:induction false} ApplyBindingsAppend(env: EnvMap, a: seq<Binding>, b: seq<Binding>)
    ensures ApplyBindings(env, a + b) == ApplyBindings(ApplyBindings(env, a), b)
  {
    if b != [] {
      assert (a + b)[..|a + b| - 1] == a + b[..|b| - 1];
      ApplyBindingsAppend(env, a, b[..|b| - 1]);
    } else {
      assert a + b == a;
    }
  }

  /** Reference definition of "last write wins": the value of the last
      binding that names `key`, if any. */
  function LastWrite(bs: seq<Binding>, key: string): Option<string>
  {
    if bs == [] then None
    else if Names(bs[|bs| - 1], key) then Some(bs[|bs| - 1].value)
    else LastWrite(bs[..|bs| - 1], key)
  }

  /** The bindings agree with the reference: a key some binding names holds
      the last such value; any other key keeps its original entry (or stays
      absent). */
  lemma {:induction false} ApplyBindingsLookup(env: EnvMap, bs: seq<Binding>, key: string)
    ensures LastWrite(bs, key).Some? ==>
              key in ApplyBindings(env, bs) && ApplyBindings(env, bs)[key] == LastWrite(bs, key).value
    ensures LastWrite(bs, key).None? ==>
              (key in ApplyBindings(env, bs) <==> key in env) &&
              (key in env ==> ApplyBindings(env, bs)[key] == env[key])
  {
    if bs != [] {
      ApplyBindingsLookup(env, bs[..|bs| - 1], key);
    }
  }

  /** `LastWrite` is the value of the binding at the last index naming the key. */
  lemma {:induction false} LastWriteAt(bs: seq<Binding>, key: string, i: nat)
    requires i < |bs| && Names(bs[i], key)
    requires forall j :: i < j < |bs| ==> !Names(bs[j], key)
    ensures LastWrite(bs, key) == Some(bs[i].value)
  {
    var n := |bs| - 1;
    if i < n {
      assert !Names(bs[n], key);
      assert forall j :: i < j < n ==> bs[..n][j] == bs[j];
      LastWriteAt(bs[..n], key, i);
    }
  }

  /** No binding names the key: `LastWrite` finds nothing. */
  lemma {:induction false} LastWriteNone(bs: seq<Binding>, key: string)
    requires forall j :: 0 <= j < |bs| ==> !Names(bs[j], key)
    ensures LastWrite(bs, key).None?
  {
    if bs != [] {
      var n := |bs| - 1;
      assert forall j :: 0 <= j < n ==> bs[..n][j] == bs[j];
      LastWriteNone(bs[..n], key);
    }
  }

  /** The keys after the bindings: the original ones plus every truthy name. */
  lemma {:induction false} ApplyBindingsKeys(env: EnvMap, bs: seq<Binding>)
    ensures ApplyBindings(env, bs).Keys
            == env.Keys + set i | 0 <= i < |bs| && Truthy(bs[i].name) :: bs[i].name.value
  {
    if bs != [] {
      var n := |bs| - 1;
      ApplyBindingsKeys(env, bs[..n]);
      var before := set i | 0 <= i < n && Truthy(bs[..n][i].name) :: bs[..n][i].name.value;
      var after := set i | 0 <= i < |bs| && Truthy(bs[i].name) :: bs[i].name.value;
      assert before == set i | 0 <= i < n && Truthy(bs[i].name) :: bs[i].name.value;
      if Truthy(bs[n].name) {
        assert after == before + {bs[n].name.value};
      } else {
        assert after == before;
      }
    }
  }

  /** Binding the same name twice with the same value leaves one entry,
      as binding it once does. */
  lemma BindTwice(env: EnvMap, b: Binding)
    ensures Bind(Bind(env, b), b) == Bind(env, b)
  {
  }
}
