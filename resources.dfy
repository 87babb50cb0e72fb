/** Resource loading (src/resources.rs): turning a "/"-separated resource
    name into a path under the resource root, and reading a file as a C string. */
module Resources {
  import opened Gl
  import opened Wrappers

  /** A path as its sequence of components below the file-system root. */
  type Path = seq<string>

  /** What the operating system reports for a failed file operation. */
  datatype IoError = IoError(message: string)

  datatype ResourceError = Io(inner: IoError) | FileContainsNil | FailedToGetExePath

  /** From<io::Error> for ResourceError. */
  function FromIo(e: IoError): (r: ResourceError)
    ensures r.Io? && r.inner == e
  {
    Io(e)
  }

  /** Display for ResourceError; an I/O error shows its own text. */
  function Display(e: ResourceError): (s: string)
    ensures e.Io? ==> s == e.inner.message
    ensures e.FileContainsNil? ==> s == "File contains nil byte."
    ensures e.FailedToGetExePath? ==> s == "Could not get application executable path."
  {
    match e
    case FileContainsNil => "File contains nil byte."
    case FailedToGetExePath => "Could not get application executable path."
    case Io(inner) => inner.message
  }

  /** The two fixed messages tell the two errors apart. */
  lemma FixedMessagesDiffer()
    ensures Display(FileContainsNil) != Display(FailedToGetExePath)
  {
    assert |Display(FileContainsNil)| == 23;
    assert |Display(FailedToGetExePath)| == 42;
  }

  /** The resource root and the file system below it: `read` is what opening
      and reading a path to the end yields. */
  datatype Resources = Resources(root: Path, read: Path -> Result<seq<byte>, IoError>)

  /** from_relative_exe_path: the root is `rel` joined to the directory of the
      running executable; `exe` is what the OS reports as the executable's path. */
  function FromRelativeExePath(exe: Option<Path>, rel: Path, read: Path -> Result<seq<byte>, IoError>)
    : (r: Result<Resources, ResourceError>)
    ensures r.Err? <==> exe.None? || exe.value == []
    ensures r.Err? ==> r.error == FailedToGetExePath
    ensures r.Ok? ==> r.value.root == exe.value[..|exe.value| - 1] + rel && r.value.read == read
  {
    match exe
    case None => Err(FailedToGetExePath)
    case Some(file) =>
      if file == [] then Err(FailedToGetExePath)
      else Ok(Resources(file[..|file| - 1] + rel, read))
  }

  /** str::split("/"): the pieces between separators, empty ones included. */
  function Split(s: string): (parts: seq<string>)
    ensures |parts| >= 1
    ensures forall i :: 0 <= i < |parts| ==> '/' !in parts[i]
  {
    if s == [] then [""] else PushFront(s[0], Split(s[1..]))
  }

  /** The pieces of `[c] + t` from those of `t`: a separator opens an empty
      first piece, any other character joins the first piece. */
  function PushFront(c: char, parts: seq<string>): seq<string>
    requires |parts| >= 1
  {
    if c == '/' then [""] + parts else [[c] + parts[0]] + parts[1..]
  }

  /** The pieces joined back with "/" separators. */
  function JoinWithSlash(parts: seq<string>): string
    requires |parts| >= 1
  {
    if |parts| == 1 then parts[0] else parts[0] + "/" + JoinWithSlash(parts[1..])
  }

  /** Splitting loses nothing: the pieces joined with "/" give the name back. */
  lemma {:induction false} SplitRoundTrip(s: string)
    ensures JoinWithSlash(Split(s)) == s
  {
    if s != [] {
      var rest := Split(s[1..]);
      SplitRoundTrip(s[1..]);
      if s[0] == '/' {
        assert Split(s) == [""] + rest;
        assert ([""] + rest)[1..] == rest;
        assert JoinWithSlash(Split(s)) == "" + "/" + JoinWithSlash(rest);
        assert s == [s[0]] + s[1..];
      } else if |rest| == 1 {
        assert JoinWithSlash(Split(s)) == [s[0]] + rest[0];
        assert s == [s[0]] + s[1..];
      } else {
        assert JoinWithSlash(rest) == rest[0] + "/" + JoinWithSlash(rest[1..]);
        assert JoinWithSlash(Split(s)) == [s[0]] + rest[0] + "/" + JoinWithSlash(rest[1..]);
        assert s == [s[0]] + s[1..];
      }
    }
  }

  /** PathBuf::join(part) seen on components: an empty or "." piece adds none. */
  function Join(path: Path, part: string): Path {
    if part == "" || part == "." then path else path + [part]
  }

  /** The components the pieces contribute, in order. */
  function Components(parts: seq<string>): Path {
    if parts == [] then [] else Join(Components(parts[..|parts| - 1]), parts[|parts| - 1])
  }

  /** The path resource_name_to_path builds for `location` under `root`. */
  function ResourcePath(root: Path, location: string): Path {
    root + Components(Split(location))
  }

  /** resource_name_to_path: join every "/"-separated piece to the root, in order. */
  method ResourceNameToPath(root: Path, location: string) returns (path: Path)
    ensures path == ResourcePath(root, location)
  {
    path := root;
    var parts := Split(location);
    var i := 0;
    while i < |parts|
      invariant 0 <= i <= |parts|
      invariant path == root + Components(parts[..i])
    {
      assert parts[..i + 1][..i] == parts[..i];
      path := Join(path, parts[i]);
      i := i + 1;
    }
    assert parts[..i] == parts;
  }

  /** A name without separators, other than "" and ".", lands directly under the root. */
  lemma PlainNameIsOneComponent(root: Path, name: string)
    requires '/' !in name && name != "" && name != "."
    ensures ResourcePath(root, name) == root + [name]
  {
    SplitWithoutSeparator(name);
    assert Components([name]) == Join(Components([]), name);
  }

  lemma {:induction false} SplitWithoutSeparator(s: string)
    requires '/' !in s
    ensures Split(s) == [s]
  {
    if s != [] {
      SplitWithoutSeparator(s[1..]);
      assert s == [s[0]] + s[1..];
    }
  }

  /** The segments are joined in order: the path of "a/b" is the path of `a`
      followed by the components of `b`. */
  lemma ResourcePathConcatenates(root: Path, a: string, b: string)
    ensures ResourcePath(root, a + "/" + b) == ResourcePath(root, a) + Components(Split(b))
  {
    SplitAtSeparator(a, b);
    ComponentsAppend(Split(a), Split(b));
  }

  lemma {:induction false} SplitAtSeparator(a: string, b: string)
    ensures Split(a + "/" + b) == Split(a) + Split(b)
  {
    if a == [] {
      assert (a + "/" + b)[1..] == b;
    } else {
      assert (a + "/" + b)[1..] == a[1..] + "/" + b;
      SplitAtSeparator(a[1..], b);
      PushFrontAppend(a[0], Split(a[1..]), Split(b));
    }
  }

  lemma PushFrontAppend(c: char, parts: seq<string>, more: seq<string>)
    requires |parts| >= 1
    ensures PushFront(c, parts + more) == PushFront(c, parts) + more
  {
    if c != '/' {
      assert (parts + more)[1..] == parts[1..] + more;
    }
  }

  lemma {:induction false} ComponentsAppend(p: seq<string>, q: seq<string>)
    ensures Components(p + q) == Components(p) + Components(q)
    decreases |q|
  {
    if q == [] {
      assert p + q == p;
    } else {
      var n := |q| - 1;
      assert (p + q)[..|p + q| - 1] == p + q[..n];
      ComponentsAppend(p, q[..n]);
    }
  }

  /** What load_cstring makes of the file's contents. */
  function CString(file: Result<seq<byte>, IoError>): (r: Result<seq<byte>, ResourceError>)
    ensures r == Err(FileContainsNil) <==> file.Ok? && 0 in file.value
    ensures r.Ok? <==> file.Ok? && 0 !in file.value
    ensures r.Ok? ==> r.value == file.value
    ensures file.Err? ==> r == Err(Io(file.error))
  {
    match file
    case Err(e) => Err(FromIo(e))
    case Ok(bytes) => if 0 in bytes then Err(FileContainsNil) else Ok(bytes)
  }

  /** load_cstring: open the resource's path, read it whole, reject a 0 byte. */
  method LoadCString(res: Resources, name: string) returns (r: Result<seq<byte>, ResourceError>)
    ensures r == CString(res.read(ResourcePath(res.root, name)))
  {
    var path := ResourceNameToPath(res.root, name);
    var file := res.read(path);
    if file.Err? {
      return Err(FromIo(file.error));
    }
    var buffer := file.value;
    if 0 in buffer {
      return Err(FileContainsNil);
    }
    return Ok(buffer);
  }
}
