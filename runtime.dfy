/**
  The world the core runs against: the local disk as folders of named files, and a
  record of the calls it makes to the object store, to directory enumeration and to
  the table readers.
 */
module Runtime {
  import opened Config

  /** One line as a file iterator yields it, terminator included. */
  type Line = string

  /** A value stored in the training summary record. A table read by pandas is
      identified by the path it was read from. */
  datatype Value =
    | Str(s: string)
    | Settings(settings: MainSettings)
    | Names(names: seq<string>)
    | Frame(source: string)

  /** A file on the local disk. Reading a `Text` file yields `lines`; when
      `readFault` is set, the read raises after those lines. A `Pickled` file holds
      a dumped record and does not read as text. */
  datatype File =
    | Text(lines: seq<Line>, readFault: bool)
    | Pickled(record: map<string, Value>)

  /** An object-store client, built from four environment lookups. */
  datatype S3Client = S3Client(
    endpointUrl: Option<string>,
    accessKeyId: Option<string>,
    secretAccessKey: Option<string>,
    bucket: Option<string>)

  /** `os.getenv(name)`: the variable's value, or `None` when it is unset. */
  function Getenv(env: map<string, string>, name: string): (r: Option<string>)
    ensures r.Some? <==> name in env
    ensures r.Some? ==> r.value == env[name]
  {
    if name in env then Some(env[name]) else None
  }

  /** The client for one bucket: every credential is looked up under the
      variable name the bucket settings give for it. */
  function Connect(env: map<string, string>, bucket: BucketSettings): (c: S3Client)
    ensures c.endpointUrl.Some? <==> bucket.s3Endpoint in env
    ensures c.accessKeyId.Some? <==> bucket.s3AccessKey in env
    ensures c.secretAccessKey.Some? <==> bucket.s3SecretKey in env
    ensures c.bucket.Some? <==> bucket.s3BucketName in env
  {
    S3Client(
      Getenv(env, bucket.s3Endpoint),
      Getenv(env, bucket.s3AccessKey),
      Getenv(env, bucket.s3SecretKey),
      Getenv(env, bucket.s3BucketName))
  }

  /** The exceptions that escape the core, with the name they arose on. */
  datatype Error =
    | FileExists(name: string)
    | FileNotFound(name: string)
    | AttributeError(attribute: string)

  /** How a call ends: it returns a value or an exception propagates to the caller. */
  datatype Outcome<T> = Return(value: T) | Raise(error: Error)

  /** A call the core makes outside its own memory. */
  datatype Event =
    | Download(client: S3Client, remotePrefix: string, localDir: string)
    | Upload(client: S3Client, filePath: string, s3Prefix: string, s3Key: string)
    | ListDir(dir: string)
    | Glob(pattern: string)
    | ReadExcel(path: string)
    | ReadCsv(path: string)

  /** The local disk and the calls made so far. */
  class Host {
    var dirs: map<string, map<string, File>>
    var trace: seq<Event>

    method Record(e: Event)
      modifies this
      ensures dirs == old(dirs)
      ensures trace == old(trace) + [e]
    {
      trace := trace + [e];
    }

    /** Creates or replaces the file `name` in the existing folder `dir`. */
    method Put(dir: string, name: string, f: File)
      requires dir in dirs
      modifies this
      ensures dirs == old(dirs)[dir := old(dirs)[dir][name := f]]
      ensures trace == old(trace)
    {
      dirs := dirs[dir := dirs[dir][name := f]];
    }
  }

  lemma UpdateTwice<K, V>(m: map<K, V>, k: K, a: V, b: V)
    ensures m[k := a][k := b] == m[k := b]
  {
  }

  lemma AppendThree(t: seq<Event>, a: seq<Event>, b: seq<Event>, c: seq<Event>)
    ensures t + a + b + c == t + (a + (b + c))
  {
  }

  lemma AppendAssoc<T>(a: seq<T>, b: seq<T>, c: seq<T>)
    ensures a + b + c == a + (b + c)
  {
  }

  /** A trace made of downloads, then calls that neither download nor upload, then
      uploads: it counts each kind by its part, orders downloads before listings,
      and its uploads are those of the last part. */
  lemma ThreePartTrace(d: seq<Event>, m: seq<Event>, u: seq<Event>)
    requires forall e :: e in d ==> e.Download?
    requires forall e :: e in m ==> !e.Download? && !e.Upload?
    requires forall e :: e in u ==> e.Upload?
    ensures CountDownloads(d + (m + u)) == |d|
    ensures CountUploads(d + (m + u)) == |u|
    ensures DownloadsBeforeListings(d + (m + u))
    ensures forall e :: e in d + (m + u) && e.Upload? ==> e in u
  {
    CountsWithout(d);
    CountsWithout(m);
    CountsWithout(u);
    CountsOfConcat(m, u);
    CountsOfConcat(d, m + u);
    assert forall e :: e in m + u ==> e in m || e in u;
    DownloadsFirst(d, m + u);
  }

  /** The files of folder `dir`; a folder that does not exist lists nothing. */
  function Folder(dirs: map<string, map<string, File>>, dir: string): map<string, File>
  {
    if dir in dirs then dirs[dir] else map[]
  }

  function CountDownloads(t: seq<Event>): nat
  {
    if t == [] then 0 else (if t[0].Download? then 1 else 0) + CountDownloads(t[1..])
  }

  function CountUploads(t: seq<Event>): nat
  {
    if t == [] then 0 else (if t[0].Upload? then 1 else 0) + CountUploads(t[1..])
  }

  predicate IsListing(e: Event)
  {
    e.ListDir? || e.Glob?
  }

  /** No download comes after a directory enumeration. */
  predicate DownloadsBeforeListings(t: seq<Event>)
  {
    forall i, j :: 0 <= i < j < |t| && IsListing(t[i]) ==> !t[j].Download?
  }

  lemma {:induction false} CountsOfConcat(a: seq<Event>, b: seq<Event>)
    ensures CountDownloads(a + b) == CountDownloads(a) + CountDownloads(b)
    ensures CountUploads(a + b) == CountUploads(a) + CountUploads(b)
  {
    if a == [] {
      assert a + b == b;
    } else {
      assert (a + b)[1..] == a[1..] + b;
      CountsOfConcat(a[1..], b);
    }
  }

  /** A trace with no download, or no upload, counts none; one made only of
      downloads, or only of uploads, counts every call. */
  lemma {:induction false} CountsWithout(t: seq<Event>)
    ensures (forall e :: e in t ==> !e.Download?) ==> CountDownloads(t) == 0
    ensures (forall e :: e in t ==> !e.Upload?) ==> CountUploads(t) == 0
    ensures (forall e :: e in t ==> e.Download?) ==> CountDownloads(t) == |t|
    ensures (forall e :: e in t ==> e.Upload?) ==> CountUploads(t) == |t|
  {
    if t != [] {
      assert forall e :: e in t[1..] ==> e in t;
      CountsWithout(t[1..]);
    }
  }

  /** Downloads issued before every other call come before every listing. */
  lemma DownloadsFirst(d: seq<Event>, rest: seq<Event>)
    requires forall e :: e in d ==> e.Download?
    requires forall e :: e in rest ==> !e.Download?
    ensures DownloadsBeforeListings(d + rest)
  {
    var t := d + rest;
    forall i, j | 0 <= i < j < |t|
      ensures IsListing(t[i]) ==> !t[j].Download?
    {
      if j < |d| {
        assert t[i] == d[i] && d[i] in d;
      } else {
        assert t[j] == rest[j - |d|] && rest[j - |d|] in rest;
      }
    }
  }
}
