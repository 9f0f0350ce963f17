/** The settings of a container: what one update leaves for later reads and updates. */
module Configs {
  import opened Wrappers
  import opened DataModel
  import opened EngineData

  ghost predicate SortedEntries(env: seq<(string, string)>) {
    forall i, j :: 0 <= i < j < |env| ==> Before(env[i].0, env[j].0)
  }

  lemma {:induction false} BeforeOrNot(a: string, b: string)
    ensures a == b || Before(a, b) || Before(b, a)
    ensures !(Before(a, b) && Before(b, a)) && !Before(a, a)
    decreases a
  {
    if a != "" && b != "" && a[0] == b[0] {
      BeforeOrNot(a[1..], b[1..]);
      assert a == [a[0]] + a[1..] && b == [b[0]] + b[1..];
    }
    if a != "" { BeforeOrNot(a[1..], a[1..]); }
  }

  lemma {:induction false} BeforeTransitive(a: string, b: string, c: string)
    requires Before(a, b) && Before(b, c)
    ensures Before(a, c)
    decreases a
  {
    if a != "" && a[0] == b[0] == c[0] { BeforeTransitive(a[1..], b[1..], c[1..]); }
  }

  /** Setting a variable keeps the entries sorted and changes what is read for that variable only. */
  lemma {:induction false} SetThenGet(env: seq<(string, string)>, key: string, value: string, other: string)
    ensures GetEntry(SetEntry(env, key, value), other) == if other == key then Some(value) else GetEntry(env, other)
    decreases |env|
  {
    if env != [] && !Before(key, env[0].0) && env[0].0 != key { SetThenGet(env[1..], key, value, other); }
  }

  predicate HasKey(env: seq<(string, string)>, key: string) {
    exists j :: 0 <= j < |env| && env[j].0 == key
  }

  lemma {:induction false} SetKeepsSorted(env: seq<(string, string)>, key: string, value: string)
    requires SortedEntries(env)
    ensures SortedEntries(SetEntry(env, key, value))
    ensures forall i :: 0 <= i < |SetEntry(env, key, value)| ==>
              SetEntry(env, key, value)[i].0 == key || HasKey(env, SetEntry(env, key, value)[i].0)
    decreases |env|
  {
    hide Before;
    if env != [] && Before(key, env[0].0) {
      forall i | 0 < i < |env| ensures Before(key, env[i].0) { BeforeTransitive(key, env[0].0, env[i].0); }
    } else if env != [] && env[0].0 != key {
      BeforeOrNot(key, env[0].0);
      SetKeepsSorted(env[1..], key, value);
    }
  }

  function Set(d: Data, key: string, value: string): Data
    requires d.ContainerData? || d.ServiceData?
  {
    UpdateConfig(d, (c: ContainerConfig) => c.(env := SetEntry(c.env, key, value)))
  }

  /** Env and GetEnv fit together: a variable reads as it was set, every other one as before, and the
      container or service is otherwise the same. */
  lemma SetVariableIsRead(world: World, d: Data, key: string, value: string, other: string)
    requires d.ContainerData? || d.ServiceData?
    ensures Execute(world, Wrap(SetEnvVar), [d, StringData(key), StringData(value)]) == Ok(Set(d, key, value))
    ensures Execute(world, Wrap(GetEnvVar), [Set(d, key, value), StringData(other)])
         == Ok(StringData(if other == key then value else Variable(Inner(d), other)))
    ensures Set(d, key, value)
         == WithInner(d, Inner(d).(config := Inner(d).config.(env := Inner(Set(d, key, value)).config.env)))
  {
    SetThenGet(Inner(d).config.env, key, value, other);
    var set_, get := [d, StringData(key), StringData(value)], [Set(d, key, value), StringData(other)];
    assert AllAccepted(SetEnvVar.Params(), set_) && set_[..3] == set_;
    assert AllAccepted(GetEnvVar.Params(), get) && get[..2] == get;
  }
}
