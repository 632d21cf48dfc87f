/**
 * internal/profile/profile.go: the server profile and its Validate step,
 * which defaults the data directory, resolves it to an absolute path without
 * trailing separators, makes sure it exists, and defaults the DSN.
 *
 * The filesystem is a parameter: the working directory, filepath.Clean,
 * os.Stat and os.MkdirAll are its fields. Paths are POSIX paths.
 */
module Profile {
  import opened Wrappers
  import opened Errors
  import opened Strings

  const UnixDefaultData: string := "/var/opt/go-server"
  const PostgresDefaultDsn: string := "host=localhost port=5432 user=postgres password=password dbname=goserver sslmode=disable"
  const Separators: set<char> := {'\\', '/'}

  datatype StatResult = Exists | NotExist | StatFailed(err: Error)

  datatype FileSystem = FileSystem(
    getwd: Result<string>,
    clean: string -> string,
    stat: string -> StatResult,
    mkdirAll: string -> Option<Error>)

  predicate IsAbs(path: string) {
    HasPrefix(path, "/")
  }

  /** filepath.Join of two non-empty elements. */
  function Join(fs: FileSystem, a: string, b: string): string {
    fs.clean(a + "/" + b)
  }

  /** The data directory before resolution (the Windows branch is not modelled). */
  function DefaultData(demo: bool, data: string): (d: string)
    ensures data != "" ==> d == data
    ensures data == "" && !demo ==> d == UnixDefaultData
    ensures data == "" && demo ==> d == "."
  {
    var d := if !demo && data == "" then UnixDefaultData else data;
    if d == "" then "." else d
  }

  /** The path checkDataDir settles on before touching the filesystem. */
  function ResolvedPath(fs: FileSystem, dataDir: string): Result<string> {
    if IsAbs(dataDir) then Ok(TrimRight(dataDir, Separators))
    else if fs.getwd.Err? then Err(Wrap(fs.getwd.error, "unable to get current working directory"))
    else Ok(TrimRight(fs.clean(Join(fs, fs.getwd.value, dataDir)), Separators))
  }

  /** checkDataDir's result. */
  function DataDirOutcome(fs: FileSystem, dataDir: string): (r: Result<string>)
    ensures r.Ok? ==> ResolvedPath(fs, dataDir) == r
    ensures r.Ok? ==> r.value == [] || r.value[|r.value| - 1] !in Separators
  {
    var path := ResolvedPath(fs, dataDir);
    if path.Err? then path
    else
      var dir := path.value;
      match fs.stat(dir)
      case Exists => Ok(dir)
      case NotExist =>
        var made := fs.mkdirAll(dir);
        if made.Some? then Err(Wrap(made.value, "unable to create data folder " + dir)) else Ok(dir)
      case StatFailed(e) => Err(Wrap(e, "unable to access data folder " + dir))
  }

  /** An absolute directory that is not made of separators alone stays absolute. */
  lemma AbsoluteDirStaysAbsolute(fs: FileSystem, dataDir: string, k: nat)
    requires IsAbs(dataDir) && k < |dataDir| && dataDir[k] !in Separators
    requires DataDirOutcome(fs, dataDir).Ok?
    ensures IsAbs(DataDirOutcome(fs, dataDir).value)
  {
    var r := TrimRight(dataDir, Separators);
    assert k < |r|;
    assert r[0] == dataDir[0];
  }

  /** checkDataDir, reassigning its directory step by step. */
  method CheckDataDir(fs: FileSystem, dataDir: string) returns (r: Result<string>)
    ensures r == DataDirOutcome(fs, dataDir)
  {
    var dir := dataDir;
    if !IsAbs(dir) {
      if fs.getwd.Err? {
        return Err(Wrap(fs.getwd.error, "unable to get current working directory"));
      }
      var relativeDir := Join(fs, fs.getwd.value, dir);
      dir := fs.clean(relativeDir);
    }
    dir := TrimRight(dir, Separators);
    var st := fs.stat(dir);
    if st.NotExist? {
      var made := fs.mkdirAll(dir);
      if made.Some? {
        return Err(Wrap(made.value, "unable to create data folder " + dir));
      }
    } else if st.StatFailed? {
      return Err(Wrap(st.err, "unable to access data folder " + dir));
    }
    return Ok(dir);
  }

  /** The DSN after Validate, for the resolved directory `dir`. */
  function DefaultDsn(fs: FileSystem, driver: string, dsn: string, demo: bool, dir: string): (r: string)
    ensures dsn != "" ==> r == dsn
    ensures driver != "sqlite" && driver != "postgresql" ==> r == dsn
    ensures driver == "postgresql" && dsn == "" ==> r == PostgresDefaultDsn
    ensures driver == "sqlite" && dsn == "" ==>
      r == Join(fs, dir, if demo then "go-server_demo.db" else "go-server_prod.db")
  {
    if driver == "sqlite" && dsn == "" then
      var mode := if demo then "demo" else "prod";
      assert "go-server_" + "demo" + ".db" == "go-server_demo.db";
      assert "go-server_" + "prod" + ".db" == "go-server_prod.db";
      Join(fs, dir, "go-server_" + mode + ".db")
    else if driver == "postgresql" && dsn == "" then PostgresDefaultDsn
    else dsn
  }

  class Profile {
    var demo: bool
    var addr: string
    var port: int
    var data: string
    var dsn: string
    var driver: string
    var secret: string
    var version: string

    constructor (demo: bool, addr: string, port: int, data: string, dsn: string, driver: string, secret: string, version: string)
      ensures this.demo == demo && this.addr == addr && this.port == port && this.data == data
      ensures this.dsn == dsn && this.driver == driver && this.secret == secret && this.version == version
    {
      this.demo := demo;
      this.addr := addr;
      this.port := port;
      this.data := data;
      this.dsn := dsn;
      this.driver := driver;
      this.secret := secret;
      this.version := version;
    }

    /**
     * Validate. On an error the data directory keeps its defaulted value and
     * the DSN is untouched; on success both are rewritten.
     */
    method Validate(fs: FileSystem) returns (err: Option<Error>)
      modifies this
      ensures demo == old(demo) && addr == old(addr) && port == old(port) && driver == old(driver)
      ensures secret == old(secret) && version == old(version)
      ensures var outcome := DataDirOutcome(fs, DefaultData(old(demo), old(data)));
        (outcome.Err? ==> err == Some(outcome.error) && data == DefaultData(old(demo), old(data)) && dsn == old(dsn)) &&
        (outcome.Ok? ==> err == None && data == outcome.value && dsn == DefaultDsn(fs, driver, old(dsn), demo, outcome.value))
    {
      if !demo && data == "" {
        data := UnixDefaultData;
      }
      if data == "" {
        data := ".";
      }
      var dataDir := CheckDataDir(fs, data);
      if dataDir.Err? {
        return Some(dataDir.error);
      }
      data := dataDir.value;
      if driver == "sqlite" && dsn == "" {
        var mode := "prod";
        if demo {
          mode := "demo";
        }
        dsn := Join(fs, dataDir.value, "go-server_" + mode + ".db");
      } else if driver == "postgresql" && dsn == "" {
        dsn := PostgresDefaultDsn;
      }
      return None;
    }
  }
}
