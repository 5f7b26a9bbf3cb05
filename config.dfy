/**
  `LoadConfig`: builds the options record from the call's options, in
  argument order, and prints the loaded configuration when asked to. Reading
  definition files and populating the value from the environment are done by
  libraries outside this model; the value they produce is a parameter here.
 */
module ConfigLoader {
  import opened ConfigOptions
  import opened ConfigPrinter

  /** The diagnostic output of a load with the given options and value. */
  function Diagnostics(options: seq<LoadOption>, instance: Value): seq<string>
  {
    var s := ApplyOptions(Defaults, options);
    if s.printLogLoading then Framed(instance, s.prefix) else []
  }

  /** The output is the framed dump exactly when some option is
      `WithPrintConfig`, and it does not depend on the prefix. */
  lemma DiagnosticsWhenAsked(options: seq<LoadOption>, instance: Value)
    ensures WithPrintConfig in options ==>
              Diagnostics(options, instance) == Framed(instance, "")
    ensures WithPrintConfig !in options ==> Diagnostics(options, instance) == []
  {
    var s := ApplyOptions(Defaults, options);
    PrintFlagSet(Defaults, options);
    PrefixIgnored(instance, s.prefix, "");
  }

  /** The options record `LoadConfig` ends up with: the options applied to a
      fresh record one by one, the first argument first. */
  method CollectOptions(options: seq<LoadOption>) returns (opts: Options)
    ensures fresh(opts)
    ensures opts.View() == ApplyOptions(Defaults, options)
  {
    opts := new Options();
    var i := 0;
    while i < |options|
      invariant 0 <= i <= |options|
      invariant opts.View() == ApplyOptions(Defaults, options[..i])
    {
      opts.Apply(options[i]);
      ApplyOptionsSnoc(Defaults, options[..i], options[i]);
      assert options[..i + 1] == options[..i] + [options[i]];
      i := i + 1;
    }
    assert options[..i] == options;
  }

  /** `LoadConfig`: `instance` is the value populated from the environment.
      The dump is written to `out` when printing was asked for; `completed`
      is false when that dump panics, in which case the Go call never
      returns. Otherwise the value is returned as it is, with no error. */
  method LoadConfig(options: seq<LoadOption>, instance: Value, out: Output)
    returns (cfg: Value, err: Option<string>, completed: bool)
    modifies out
    ensures cfg == instance && err == None
    ensures completed <==> !(ApplyOptions(Defaults, options).printLogLoading && Panics(instance))
    ensures out.lines == old(out.lines) + Diagnostics(options, instance)
  {
    var opts := CollectOptions(options);
    completed := true;
    if opts.printLogLoading {
      completed := PrintConfig(out, instance, opts.prefix);
    }
    return instance, None, completed;
  }

  /** An error, or its absence. */
  datatype Option<T> = None | Some(value: T)

  /** The nested configuration of the library's tests: a Redis and a
      Postgres struct, each with an address and a password, under the tags
      DB_REDIS and DB_POSTGRES. */
  function DbConfig(redisAddress: string, redisPassword: string, pgAddress: string, pgPassword: string): Value
  {
    Struct("config_test.DBConfig", [
      Field("DB_REDIS", true, Struct("config_test.RedisConfig", [
        Field("ADDRESS", true, Scalar(redisAddress)), Field("PASSWORD", true, Scalar(redisPassword))])),
      Field("DB_POSTGRES", true, Struct("config_test.PostgresConfig", [
        Field("ADDRESS", true, Scalar(pgAddress)), Field("PASSWORD", true, Scalar(pgPassword))]))])
  }

  /** The dump of a struct with an address and a password: ADDRESS, the
      shorter tag, is padded with one space to the width of PASSWORD. */
  lemma DbStructDump(typeName: string, address: string, password: string)
    ensures Lines(Struct(typeName, [Field("ADDRESS", true, Scalar(address)), Field("PASSWORD", true, Scalar(password))]), "")
         == [Header(typeName), "ADDRESS  : " + address, "PASSWORD : " + password]
    ensures !Panics(Struct(typeName, [Field("ADDRESS", true, Scalar(address)), Field("PASSWORD", true, Scalar(password))]))
  {
    var fs := [Field("ADDRESS", true, Scalar(address)), Field("PASSWORD", true, Scalar(password))];
    assert Width(fs[..1]) == 7;
    assert Width(fs) == 8;
    assert Spaces(1) == " ";
    assert PadRight("ADDRESS", 8) == "ADDRESS ";
    assert LeafLine("ADDRESS", 8, address) == "ADDRESS  : " + address;
    assert LeafLine("PASSWORD", 8, password) == "PASSWORD : " + password;
    assert fs[..1][..0] == [] && fs[..1][0] == fs[0];
    assert FieldOutput(fs[0], 8, "") == ["ADDRESS  : " + address];
    assert !FieldsPanic(fs[..1]);
    assert FieldLines(fs[..1], 8, "") == ["ADDRESS  : " + address];
    assert fs[..|fs| - 1] == fs[..1];
    assert FieldLines(fs, 8, "") == FieldLines(fs[..1], 8, "") + ["PASSWORD : " + password];
    assert !FieldsPanic(fs);
  }

  /** A struct of two struct-typed fields is dumped as its header, then
      the first field's dump, then the second's: the parent's own width
      plays no part. */
  lemma TwoStructFields(n: string, f0: Field, f1: Field, prefix: string)
    requires f0.value.Struct? && f0.exported && !Panics(f0.value)
    requires f1.value.Struct? && f1.exported
    ensures Lines(Struct(n, [f0, f1]), prefix)
         == [Header(n)] + Lines(f0.value, prefix) + Lines(f1.value, prefix)
    ensures Panics(Struct(n, [f0, f1])) <==> Panics(f1.value)
  {
    var fs := [f0, f1];
    var w := Width(fs);
    assert fs[..1][..0] == [] && fs[..1][0] == f0;
    assert !FieldsPanic(fs[..1]);
    assert FieldLines(fs[..1], w, prefix) == Lines(f0.value, prefix);
    assert fs[..|fs| - 1] == fs[..1];
    assert FieldLines(fs, w, prefix) == FieldLines(fs[..1], w, prefix) + FieldOutput(f1, w, prefix);
    assert FieldOutput(f1, w, prefix) == Lines(f1.value, prefix);
    assert FieldsPanic(fs) <==> FieldPanics(f1);
  }

  /** The dump of the whole configuration: each nested struct is aligned to
      the 8 characters of PASSWORD, not to the 11 of the parent's
      DB_POSTGRES, and the parent's tags appear nowhere. */
  lemma DbConfigLines(redisAddress: string, redisPassword: string, pgAddress: string, pgPassword: string)
    ensures Lines(DbConfig(redisAddress, redisPassword, pgAddress, pgPassword), "")
         == [ Header("config_test.DBConfig"),
              Header("config_test.RedisConfig"),
              "ADDRESS  : " + redisAddress,
              "PASSWORD : " + redisPassword,
              Header("config_test.PostgresConfig"),
              "ADDRESS  : " + pgAddress,
              "PASSWORD : " + pgPassword ]
    ensures !Panics(DbConfig(redisAddress, redisPassword, pgAddress, pgPassword))
  {
    var v := DbConfig(redisAddress, redisPassword, pgAddress, pgPassword);
    DbStructDump("config_test.RedisConfig", redisAddress, redisPassword);
    DbStructDump("config_test.PostgresConfig", pgAddress, pgPassword);
    TwoStructFields("config_test.DBConfig", v.fields[0], v.fields[1], "");
  }

  /** The load of that configuration in the prefix test, with printing on:
      the dump is framed by separators and the prefix appears nowhere. */
  lemma DbConfigDump(redisAddress: string, redisPassword: string, pgAddress: string, pgPassword: string)
    ensures var v := DbConfig(redisAddress, redisPassword, pgAddress, pgPassword);
              Diagnostics([AddFiles(["fixtures/.env.prefix"]), WithPrefix("TEST_PREFIX"), WithPrintConfig], v)
              == [Separator] + Lines(v, "") + [Separator, ""]
  {
    var options := [AddFiles(["fixtures/.env.prefix"]), WithPrefix("TEST_PREFIX"), WithPrintConfig];
    assert options[2] == WithPrintConfig;
    DiagnosticsWhenAsked(options, DbConfig(redisAddress, redisPassword, pgAddress, pgPassword));
    DbConfigLines(redisAddress, redisPassword, pgAddress, pgPassword);
  }

  /** A struct whose middle field is an unexported struct: the leaf before
      it is written, then the printer panics, so the leaf after it and the
      closing separator never appear. */
  lemma UnexportedStructPanics(port: string, host: string)
    ensures var v := Struct("main.Config", [
              Field("PORT", true, Scalar(port)),
              Field("", false, Struct("main.inner", [])),
              Field("HOST", true, Scalar(host))]);
            && Panics(v)
            && Lines(v, "") == [Header("main.Config"), "PORT : " + port]
            && Framed(v, "") == [Separator, Header("main.Config"), "PORT : " + port]
  {
    var fs := [Field("PORT", true, Scalar(port)), Field("", false, Struct("main.inner", [])),
               Field("HOST", true, Scalar(host))];
    assert Width(fs[..1]) == 4 && Width(fs[..2]) == 4 && Width(fs) == 4;
    assert LeafLine("PORT", 4, port) == "PORT : " + port;
    assert fs[..1][..0] == [] && fs[..1][0] == fs[0];
    assert FieldLines(fs[..1], 4, "") == ["PORT : " + port];
    assert fs[..2][..1] == fs[..1] && fs[..2][1] == fs[1];
    assert FieldsPanic(fs[..2]);
    assert FieldLines(fs[..2], 4, "") == ["PORT : " + port];
    assert fs[..|fs| - 1] == fs[..2];
  }
}
