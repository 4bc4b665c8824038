/**
 * The namespace a check expression runs in (app.py, create_env): the
 * interpreter's standard environment, the nine built-ins under their
 * check-language names, and every configuration option that has a value,
 * bound as `*name*`.
 */
module EvalEnvironment {
  import opened Wrappers

  /** The built-ins `create_env` installs. */
  datatype Builtin =
    | GetMetrics | WeightedAverage | Sum | Max | Min | MultiSum | MultiMax | MultiMin | Last

  /** A configuration option's value, from the command line or the config file. */
  datatype ConfigValue = Text(text: string) | Integer(n: int) | Flag(b: bool)

  /**
   * What a name is bound to: something of the interpreter's standard
   * environment (named by what it is), a built-in, or a boxed option.
   */
  datatype Binding = Library(name: string) | Function(f: Builtin) | Boxed(v: ConfigValue)

  /** The check-language name of a built-in. */
  function Name(f: Builtin): string
  {
    match f
    case GetMetrics => "get-metrics"
    case WeightedAverage => "weighted-average"
    case Sum => "sum"
    case Max => "max"
    case Min => "min"
    case MultiSum => "multi-sum"
    case MultiMax => "multi-max"
    case MultiMin => "multi-min"
    case Last => "last"
  }

  /** `'*%s*' % k` */
  function Starred(k: string): string
  {
    "*" + k + "*"
  }

  /** Different option names are bound under different names. */
  lemma StarredInjective(a: string, b: string)
    requires Starred(a) == Starred(b)
    ensures a == b
  {
    assert |Starred(a)| == |a| + 2;
    assert |a| == |b|;
    forall i | 0 <= i < |a| ensures a[i] == b[i] {
      assert a[i] == Starred(a)[i + 1];
      assert b[i] == Starred(b)[i + 1];
    }
  }

  /** No built-in name has the form of a bound option. */
  lemma BuiltinNotStarred(f: Builtin, k: string)
    ensures Name(f) != Starred(k)
  {
    assert Starred(k)[0] == '*';
  }

  /** `env[name] = f` for each of the nine built-ins, in the source's order. */
  function Install(env: map<string, Binding>): map<string, Binding>
  {
    env[Name(GetMetrics) := Function(GetMetrics)]
       [Name(WeightedAverage) := Function(WeightedAverage)]
       [Name(Sum) := Function(Sum)]
       [Name(Max) := Function(Max)]
       [Name(Min) := Function(Min)]
       [Name(MultiSum) := Function(MultiSum)]
       [Name(MultiMax) := Function(MultiMax)]
       [Name(MultiMin) := Function(MultiMin)]
       [Name(Last) := Function(Last)]
  }

  /** After installation each built-in is bound under its own name. */
  lemma InstalledBuiltin(env: map<string, Binding>, f: Builtin)
    ensures Name(f) in Install(env) && Install(env)[Name(f)] == Function(f)
  {
  }

  /**
   * `{'*%s*' % k: box(v) for k, v in args.iteritems() if v is not None}`:
   * the options that have a value, each under its starred name, and nothing else.
   */
  function ConfigBindings(config: map<string, Option<ConfigValue>>): (r: map<string, Binding>)
    ensures forall k :: k in config && config[k].Some? ==> Starred(k) in r && r[Starred(k)] == Boxed(config[k].value)
    ensures forall key :: key in r ==> exists k :: k in config && config[k].Some? && key == Starred(k)
  {
    StarredIsInjective();
    map k | k in config && config[k].Some? :: Starred(k) := Boxed(config[k].value)
  }

  lemma StarredIsInjective()
    ensures forall a, b :: Starred(a) == Starred(b) ==> a == b
  {
    forall a, b | Starred(a) == Starred(b) ensures a == b {
      StarredInjective(a, b);
    }
  }

  /** An option is bound exactly when it has a value. */
  lemma ConfigBoundIffPresent(config: map<string, Option<ConfigValue>>, k: string)
    ensures Starred(k) in ConfigBindings(config) <==> k in config && config[k].Some?
  {
    if Starred(k) in ConfigBindings(config) {
      var k' :| k' in config && config[k'].Some? && Starred(k) == Starred(k');
      StarredInjective(k, k');
    }
  }

  /** The namespace `create_env` returns, as a value. */
  function EnvFor(standard: map<string, Binding>, config: map<string, Option<ConfigValue>>): map<string, Binding>
  {
    Install(standard) + ConfigBindings(config)
  }

  /**
   * Every built-in is reachable under its name whatever the configuration,
   * and every option with a value under its starred name.
   */
  lemma EnvLookup(standard: map<string, Binding>, config: map<string, Option<ConfigValue>>)
    ensures forall f: Builtin :: Name(f) in EnvFor(standard, config) && EnvFor(standard, config)[Name(f)] == Function(f)
    ensures forall k :: k in config && config[k].Some? ==>
              Starred(k) in EnvFor(standard, config) && EnvFor(standard, config)[Starred(k)] == Boxed(config[k].value)
  {
    var c := ConfigBindings(config);
    forall f: Builtin ensures Name(f) in EnvFor(standard, config) && EnvFor(standard, config)[Name(f)] == Function(f) {
      InstalledBuiltin(standard, f);
      if Name(f) in c {
        var k :| k in config && config[k].Some? && Name(f) == Starred(k);
        BuiltinNotStarred(f, k);
      }
    }
  }

  /** A name that is neither a built-in nor a bound option keeps its standard binding. */
  lemma EnvKeepsStandard(standard: map<string, Binding>, config: map<string, Option<ConfigValue>>, key: string)
    requires key in standard
    requires forall f: Builtin :: key != Name(f)
    requires forall k :: k in config && config[k].Some? ==> key != Starred(k)
    ensures key in EnvFor(standard, config) && EnvFor(standard, config)[key] == standard[key]
  {
    InstallKeeps(standard, key);
  }

  /** Installing the built-ins leaves every other name as it was. */
  lemma InstallKeeps(env: map<string, Binding>, key: string)
    requires key in env
    requires forall f: Builtin :: key != Name(f)
    ensures key in Install(env) && Install(env)[key] == env[key]
  {
  }

  /** The environment dict that `create_env` fills in place. */
  class Environment {
    var bindings: map<string, Binding>

    /** `standard_environment()`, whose contents come from the interpreter. */
    constructor (standard: map<string, Binding>)
      ensures bindings == standard
    {
      bindings := standard;
    }

    /** `env[name] = b` */
    method Set(name: string, b: Binding)
      modifies this
      ensures bindings == old(bindings)[name := b]
    {
      bindings := bindings[name := b];
    }

    /** `env.update(extra)`: the entries of `extra` win. */
    method Update(extra: map<string, Binding>)
      modifies this
      ensures bindings == old(bindings) + extra
    {
      bindings := bindings + extra;
    }
  }

  /** `create_env`: install the built-ins, then bind the options that have a value. */
  method CreateEnv(standard: map<string, Binding>, config: map<string, Option<ConfigValue>>) returns (env: Environment)
    ensures fresh(env)
    ensures env.bindings == EnvFor(standard, config)
  {
    env := new Environment(standard);
    env.Set(Name(GetMetrics), Function(GetMetrics));
    env.Set(Name(WeightedAverage), Function(WeightedAverage));
    env.Set(Name(Sum), Function(Sum));
    env.Set(Name(Max), Function(Max));
    env.Set(Name(Min), Function(Min));
    env.Set(Name(MultiSum), Function(MultiSum));
    env.Set(Name(MultiMax), Function(MultiMax));
    env.Set(Name(MultiMin), Function(MultiMin));
    env.Set(Name(Last), Function(Last));
    assert env.bindings == Install(standard);
    env.Update(ConfigBindings(config));
  }
}
