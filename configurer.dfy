/**
  Package configurer: a copy-on-write configuration. Go's value receivers
  copy the struct, so every "wither" returns a new value and the receiver is
  never changed; a Dafny datatype value has exactly that semantics.
*/
module Configurer {

  /** Go `Config`: the configuration of a microservice. */
  datatype Config = Config(workDir: string, user: string)
  {
    /** `Config.WithWorkDir`: a copy with only the working directory replaced. */
    function WithWorkDir(dir: string): (c: Config)
      ensures c.workDir == dir
      ensures c.user == user
    {
      this.(workDir := dir)
    }

    /** `Config.WithUser`: a copy with only the user replaced. */
    function WithUser(u: string): (c: Config)
      ensures c.user == u
      ensures c.workDir == workDir
    {
      this.(user := u)
    }
  }

  /** `NewConfig(user, workDir)`: note the argument order differs from the field order. */
  function NewConfig(user: string, workDir: string): (c: Config)
    ensures c.user == user && c.workDir == workDir
  {
    Config(workDir, user)
  }

  /** Setting the user and the working directory commute. */
  lemma WithersCommute(c: Config, u: string, d: string)
    ensures c.WithUser(u).WithWorkDir(d) == c.WithWorkDir(d).WithUser(u)
  {
  }

  /** The last `WithUser` wins. */
  lemma WithUserLastWins(c: Config, a: string, b: string)
    ensures c.WithUser(a).WithUser(b) == c.WithUser(b)
  {
  }

  /** The last `WithWorkDir` wins. */
  lemma WithWorkDirLastWins(c: Config, a: string, b: string)
    ensures c.WithWorkDir(a).WithWorkDir(b) == c.WithWorkDir(b)
  {
  }

  /** Setting both fields of any config gives the config built from scratch with them. */
  lemma WithersRebuild(c: Config, u: string, d: string)
    ensures c.WithUser(u).WithWorkDir(d) == NewConfig(u, d)
  {
  }

  /**
    The demo's derivation: from the guest config, `WithUser("root").WithWorkDir("/root")`
    yields the root config while the guest config itself keeps its fields.
  */
  lemma DeriveRootConfig()
    ensures var guest := NewConfig("guest", "/home/guest");
      && guest.WithUser("root").WithWorkDir("/root") == NewConfig("root", "/root")
      && guest.user == "guest" && guest.workDir == "/home/guest"
  {
  }
}
