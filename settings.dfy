/** Configuration resolution of `run` (src/cbws/run.py:66-74): the optional
    file-derived map and the environment are merged field by field, the
    environment first. */
module Settings {
  import opened Base

  /** The four settings the server is constructed with. */
  datatype Field = Port | Address | User | Password

  /** The order in which `run` resolves the fields. */
  const Order: seq<Field> := [Port, Address, User, Password]

  /** The environment variable that overrides a field. */
  function EnvVar(f: Field): string {
    match f
    case Port => "PORT"
    case Address => "RABBITMQ_ADDRESS"
    case User => "RABBITMQ_USER"
    case Password => "RABBITMQ_PWD"
  }

  /** The configuration-file key that supplies a field. */
  function FileKey(f: Field): string {
    match f
    case Port => "ws_server_port"
    case Address => "rabbitmq_address"
    case User => "rabbitmq_user"
    case Password => "rabbitmq_pwd"
  }

  /** The resolved values, one per constructor argument of the server. */
  datatype Config = Config(port: Value, rabbitmqAddress: Value, rabbitmqUser: Value, rabbitmqPwd: Value) {
    function Get(f: Field): Value {
      match f
      case Port => port
      case Address => rabbitmqAddress
      case User => rabbitmqUser
      case Password => rabbitmqPwd
    }
  }

  /** The environment variable of `f` is present and not the empty string. */
  predicate EnvSet(env: map<string, string>, f: Field) {
    EnvVar(f) in env && env[EnvVar(f)] != ""
  }

  /** Some source supplies `f`: a usable environment value or a file key. */
  predicate Supplied(env: map<string, string>, file: map<string, Value>, f: Field) {
    EnvSet(env, f) || FileKey(f) in file
  }

  /** The map `run` indexes: the parsed file when the path is truthy, else `{}`.
      `parsed` stands for what `json.load` returned for that file. */
  function LoadedConfig(confFile: Option<string>, parsed: map<string, Value>): (m: map<string, Value>)
    ensures confFile == None || confFile == Some("") ==> m == map[]
    ensures confFile != None && confFile != Some("") ==> m == parsed
  {
    if confFile.Some? && Truthy(Str(confFile.value)) then parsed else map[]
  }

  /** `os.environ.get(name, None)`. */
  function EnvGet(env: map<string, string>, name: string): Value {
    if name in env then Str(env[name]) else Null
  }

  /** `config[key]`, which raises KeyError on a missing key. */
  function Lookup(file: map<string, Value>, key: string): Result<Value> {
    if key in file then Ok(file[key]) else Err(MissingKey(key))
  }

  /** One line `os.environ.get(VAR, None) or config[key]`: the environment
      value wins when it is present and non-empty, and the file is indexed
      only otherwise; the file value is then returned as it is, falsy or not. */
  function ResolveField(env: map<string, string>, file: map<string, Value>, f: Field): (r: Result<Value>)
    ensures r.Ok? <==> Supplied(env, file, f)
    ensures EnvSet(env, f) ==> r == Ok(Str(env[EnvVar(f)]))
    ensures !EnvSet(env, f) && FileKey(f) in file ==> r == Ok(file[FileKey(f)])
    ensures !EnvSet(env, f) && FileKey(f) !in file ==> r == Err(MissingKey(FileKey(f)))
  {
    var fromEnv := EnvGet(env, EnvVar(f));
    if Truthy(fromEnv) then Ok(fromEnv) else Lookup(file, FileKey(f))
  }

  /** Lines 71-74: the four fields in the order port, address, user,
      password; the first KeyError aborts the rest. */
  function Resolve(env: map<string, string>, file: map<string, Value>): (r: Result<Config>)
    ensures r.Ok? <==> forall f :: Supplied(env, file, f)
    ensures r.Ok? ==> forall f :: ResolveField(env, file, f) == Ok(r.value.Get(f))
    ensures r.Err? ==>
      exists i :: 0 <= i < |Order| && r.error == MissingKey(FileKey(Order[i])) &&
        !Supplied(env, file, Order[i]) &&
        forall j :: 0 <= j < i ==> Supplied(env, file, Order[j])
  {
    assert Order[0] == Port && Order[1] == Address && Order[2] == User && Order[3] == Password;
    var port :- ResolveField(env, file, Port);
    var address :- ResolveField(env, file, Address);
    var user :- ResolveField(env, file, User);
    var pwd :- ResolveField(env, file, Password);
    Ok(Config(port, address, user, pwd))
  }

  /** Each field has its own environment variable and its own file key; no
      name is shared between fields or between the two sources. */
  lemma PairingDistinct(f: Field, g: Field)
    ensures EnvVar(f) == EnvVar(g) ==> f == g
    ensures FileKey(f) == FileKey(g) ==> f == g
    ensures EnvVar(f) != FileKey(g)
  {
  }

  /** Without a configuration file the resolution succeeds exactly when all
      four environment variables are non-empty, and then yields them. */
  lemma NoFileNeedsEnv(env: map<string, string>, confFile: Option<string>, parsed: map<string, Value>)
    requires confFile == None || confFile == Some("")
    ensures Resolve(env, LoadedConfig(confFile, parsed)).Ok? <==> forall f :: EnvSet(env, f)
    ensures Resolve(env, LoadedConfig(confFile, parsed)).Ok? ==>
      forall f :: Resolve(env, LoadedConfig(confFile, parsed)).value.Get(f) == Str(env[EnvVar(f)])
  {
  }

  /** A file supplying all four keys, with the port overridden by the
      environment: the port is the environment's string, the rest the file's. */
  lemma EnvOverridesOneField()
    ensures var file := map["ws_server_port" := Int(8080), "rabbitmq_address" := Str("broker.local"),
                            "rabbitmq_user" := Str("u"), "rabbitmq_pwd" := Str("p")];
      Resolve(map[], file) == Ok(Config(Int(8080), Str("broker.local"), Str("u"), Str("p"))) &&
      Resolve(map["PORT" := "9090"], file) == Ok(Config(Str("9090"), Str("broker.local"), Str("u"), Str("p"))) &&
      Resolve(map["PORT" := ""], file) == Ok(Config(Int(8080), Str("broker.local"), Str("u"), Str("p")))
  {
  }
}
