/** The `submit` event of the real-time channel: validate the payload against the test
    catalog and store the source file in the submitter's workspace. */
module Intake {
  import opened Json
  import opened Strings

  /** The event payload. A field that is absent (or not a string) is `None`. */
  datatype Payload = Payload(username: Option<string>, filename: Option<string>, content: Option<string>)

  /** One entry of the tests directory listing. */
  datatype DirEntry = DirEntry(name: string, isDir: bool)

  /** The three notifications the handler sends back on the same connection. */
  datatype Message = InvalidData | ProblemNotFound | Submitted

  /** The user-facing text of each notification. */
  function Text(m: Message): (t: string)
  {
    match m
    case InvalidData => "Dữ liệu không hợp lệ!"
    case ProblemNotFound => "Không tìm thấy bài"
    case Submitted => "Nạp bài thành công!"
  }

  /** The three notifications read differently, so a client can tell them apart. */
  lemma TextDistinct(m: Message, n: Message)
    requires m != n
    ensures Text(m) != Text(n)
  {
  }

  /** The workspaces directory: user name to (file name to file content). */
  type Workspaces = map<string, map<string, string>>

  /** JavaScript truthiness of a string field: present and not empty. */
  predicate Present(field: Option<string>)
  {
    field.Some? && field.value != ""
  }

  /** `filename.split(".")[0]`: the longest prefix of the file name without a dot. */
  function ProblemName(filename: string): (name: string)
    ensures name <= filename
    ensures '.' !in name
    ensures |name| < |filename| ==> filename[|name|] == '.'
  {
    if filename == [] || filename[0] == '.' then []
    else [filename[0]] + ProblemName(filename[1..])
  }

  /** The three facts ProblemName ensures pin the name down: it is the prefix up to the
      first dot, or the whole file name when there is none. */
  lemma ProblemNameUnique(filename: string, p: string)
    requires p <= filename && '.' !in p
    requires |p| < |filename| ==> filename[|p|] == '.'
    ensures p == ProblemName(filename)
  {
  }

  /** The catalog of the submit handler: directories only, lower-cased, in listing order. */
  function Catalog(listing: seq<DirEntry>): (names: seq<string>)
    ensures |names| <= |listing|
    ensures forall n :: n in names <==> exists e :: e in listing && e.isDir && Lower(e.name) == n
  {
    if listing == [] then []
    else
      var rest := Catalog(listing[1..]);
      assert forall e :: e in listing <==> e == listing[0] || e in listing[1..];
      if listing[0].isDir then [Lower(listing[0].name)] + rest else rest
  }

  /** A problem is known when some directory of the listing has the same name up to case. */
  predicate KnownProblem(listing: seq<DirEntry>, name: string)
    ensures KnownProblem(listing, name) <==> Lower(name) in Catalog(listing)
  {
    exists e :: e in listing && e.isDir && Lower(e.name) == Lower(name)
  }

  /** The handler's verdict on a payload. */
  datatype Outcome = Rejected(message: Message) | Accepted(user: string, file: string, content: string)

  /** The two checks of the handler, in order: every field present, then the problem named
      by the file is in the catalog. An accepted submission is stored as `<problem>.cpp`. */
  function Validate(p: Payload, listing: seq<DirEntry>): (o: Outcome)
    ensures o == Rejected(InvalidData) <==>
              !(Present(p.username) && Present(p.filename) && Present(p.content))
    ensures o == Rejected(ProblemNotFound) <==>
              && Present(p.username) && Present(p.filename) && Present(p.content)
              && !KnownProblem(listing, ProblemName(p.filename.value))
    ensures o.Rejected? ==> o.message != Submitted
    ensures o.Accepted? ==>
              && o.user == p.username.value
              && o.file == ProblemName(p.filename.value) + ".cpp"
              && o.content == p.content.value
  {
    if !Present(p.username) || !Present(p.filename) || !Present(p.content) then
      Rejected(InvalidData)
    else
      var name := ProblemName(p.filename.value);
      if Lower(name) !in Catalog(listing) then Rejected(ProblemNotFound)
      else Accepted(p.username.value, name + ".cpp", p.content.value)
  }

  /** Writing `content` to `file` in `user`'s workspace, creating the workspace first. */
  function Store(ws: Workspaces, user: string, file: string, content: string): (r: Workspaces)
    ensures r.Keys == ws.Keys + {user}
    ensures file in r[user] && r[user][file] == content
    ensures r[user].Keys == (if user in ws then ws[user].Keys else {}) + {file}
    ensures forall u, f :: u in ws && f in ws[u] && (u != user || f != file) ==>
              u in r && f in r[u] && r[u][f] == ws[u][f]
    ensures forall u :: u in ws && u != user ==> r[u] == ws[u]
  {
    var dir := if user in ws then ws[user] else map[];
    ws[user := dir[file := content]]
  }

  /** Two submissions of the same problem by the same user leave the second one only. */
  lemma StoreOverwrites(ws: Workspaces, user: string, file: string, first: string, second: string)
    ensures Store(Store(ws, user, file, first), user, file, second) == Store(ws, user, file, second)
  {
    var dir := if user in ws then ws[user] else map[];
    assert dir[file := first][file := second] == dir[file := second];
  }

  /** The users directory on disk. */
  class UsersDir {
    var workspaces: Workspaces

    constructor (initial: Workspaces)
      ensures workspaces == initial
    {
      workspaces := initial;
    }

    /** The `submit` handler. `listing` is the tests directory listing it reads; `reply`
        is the message text it emits back. */
    method Submit(p: Payload, listing: seq<DirEntry>) returns (reply: string)
      modifies this
      ensures Validate(p, listing).Rejected? ==>
                reply == Text(Validate(p, listing).message) && workspaces == old(workspaces)
      ensures Validate(p, listing).Accepted? ==>
                && reply == Text(Submitted)
                && var o := Validate(p, listing);
                   workspaces == Store(old(workspaces), o.user, o.file, o.content)
    {
      if !Present(p.username) || !Present(p.filename) || !Present(p.content) {
        return Text(InvalidData);
      }
      var user, filename, content := p.username.value, p.filename.value, p.content.value;
      var tests := Catalog(listing);
      var name := ProblemName(filename);
      if Lower(name) !in tests {
        return Text(ProblemNotFound);
      }
      if user !in workspaces {
        workspaces := workspaces[user := map[]];
      }
      workspaces := workspaces[user := workspaces[user][name + ".cpp" := content]];
      reply := Text(Submitted);
    }
  }
}
