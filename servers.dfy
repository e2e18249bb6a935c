/**
 * The server manifest (src/lib/types/servers.ts): the compiled-in fallback
 * lists and the parsing of the plain-text `servers.txt` and `ahosts.txt`
 * manifests into records. The fetch itself is a parameter: the model takes the
 * response's `ok` flag and body text.
 */
module ServerList {
  import opened Wrappers
  import opened Strings

  /**
   * A content host. `name` is the manifest's second comma field, which is
   * `undefined` at run time when the line has no comma.
   */
  datatype Server = Server(name: Option<string>, hostname: string, path: string, priority: int)

  /** A host that may show ads, and its ad-code path. */
  datatype AHost = AHost(hostname: string, acode: Option<string>)

  /** What the manifest fetch resolved to. */
  datatype ManifestResponse = ManifestResponse(ok: bool, body: string)

  const AHosts: seq<AHost> := [
    AHost("ccported.github.io", Some("e/4/500442-526a-41af-9981-22db9286cd37.js")),
    AHost("ccported.click", Some("5/2/0ff0b7-11f3-4bd8-b154-cfeed8597df1.js"))
  ]

  const Servers: seq<Server> := [
    Server(Some("Charlie"), "ccgstatic.com", "games/", 0),
    Server(Some("Bell"), "ccportedgames.s3.us-west-2.amazonaws.com", "", 3),
    Server(Some("Olympic"), "d1yh00vn2fvto7.cloudfront.net", "games/", 2),
    Server(Some("Shafiyoon"), "d1cp3xh9gda0oe.cloudfront.net", "games/", 2),
    Server(Some("Racecar"), "d1vqjbyryjpk97.cloudfront.net", "games/", 2),
    Server(Some("Ellay"), "ccported.click", "games/", 1)
  ]

  /** Every element trimmed. */
  function TrimAll(xs: seq<string>): (r: seq<string>)
    ensures |r| == |xs| && forall k :: 0 <= k < |r| ==> r[k] == Trim(xs[k])
  {
    seq(|xs|, k requires 0 <= k < |xs| => Trim(xs[k]))
  }

  /** `text.split('\n').map(l => l.trim()).filter(l => l.length > 0)`. */
  function ManifestLines(text: string): seq<string> {
    KeepNonEmpty(TrimAll(Split(text, '\n')))
  }

  /** `line.split(',').map(p => p.trim())`. */
  function Fields(line: string): seq<string> {
    TrimAll(Split(line, ','))
  }

  /** `parts[i]`, `undefined` past the end. */
  function FieldAt(parts: seq<string>, i: nat): Option<string> {
    if i < |parts| then Some(parts[i]) else None
  }

  /** One manifest line as the server at `priority` (src/lib/types/servers.ts:77-83). */
  function ParseServerLine(line: string, priority: nat): Server {
    var parts := Fields(line);
    Server(
      name := FieldAt(parts, 1),
      hostname := parts[0],
      path := FieldAt(parts, 2).GetOr(""),
      priority := priority)
  }

  /** The servers of a fetched manifest body, priority from the line index. */
  function ParseServers(text: string): seq<Server> {
    var lines := ManifestLines(text);
    seq(|lines|, i requires 0 <= i < |lines| => ParseServerLine(lines[i], i))
  }

  /** `findServers` after the fetch: the fallback list unless the response is ok. */
  function FindServers(response: ManifestResponse): seq<Server> {
    if !response.ok then Servers else ParseServers(response.body)
  }

  /** One ad-host manifest line. */
  function ParseAHostLine(line: string): AHost {
    var parts := Fields(line);
    AHost(hostname := parts[0], acode := FieldAt(parts, 1))
  }

  /** `findAHosts` after the fetch. */
  function FindAHosts(response: ManifestResponse): seq<AHost> {
    if !response.ok then AHosts
    else
      var lines := ManifestLines(response.body);
      seq(|lines|, i requires 0 <= i < |lines| => ParseAHostLine(lines[i]))
  }

  /** A manifest line that is not blank once trimmed. */
  predicate IsNonBlank(line: string) {
    |Trim(line)| > 0
  }

  /** The raw lines of a manifest body. */
  function RawLines(text: string): seq<string> {
    Split(text, '\n')
  }

  /** The indices of the raw lines that are not blank, in increasing order. */
  function NonBlankIndices(text: string): (pos: seq<nat>)
    ensures forall k :: 0 <= k < |pos| ==> pos[k] < |RawLines(text)| && IsNonBlank(RawLines(text)[pos[k]])
    ensures forall k, l :: 0 <= k < l < |pos| ==> pos[k] < pos[l]
  {
    NonEmptyPositions(TrimAll(RawLines(text)))
  }

  /**
   * The manifest lines are the trimmed non-blank raw lines, in file order:
   * the k-th one is the k-th non-blank raw line trimmed, and every non-blank
   * raw line is kept.
   */
  lemma ManifestLinesSpec(text: string)
    ensures |ManifestLines(text)| == |NonBlankIndices(text)|
    ensures forall k :: 0 <= k < |ManifestLines(text)| ==>
      ManifestLines(text)[k] == Trim(RawLines(text)[NonBlankIndices(text)[k]])
    ensures forall i :: 0 <= i < |RawLines(text)| && IsNonBlank(RawLines(text)[i]) ==> i in NonBlankIndices(text)
  {
    TrimmedLinesKept(RawLines(text));
  }

  /** `ManifestLinesSpec` for any list of raw lines. */
  lemma TrimmedLinesKept(raw: seq<string>)
    ensures |KeepNonEmpty(TrimAll(raw))| == |NonEmptyPositions(TrimAll(raw))|
    ensures forall k :: 0 <= k < |KeepNonEmpty(TrimAll(raw))| ==>
      KeepNonEmpty(TrimAll(raw))[k] == Trim(raw[NonEmptyPositions(TrimAll(raw))[k]])
    ensures forall i :: 0 <= i < |raw| && IsNonBlank(raw[i]) ==> i in NonEmptyPositions(TrimAll(raw))
  {
    var trimmed := TrimAll(raw);
    KeepNonEmptyAt(trimmed);
    forall i | 0 <= i < |raw| && IsNonBlank(raw[i]) ensures i in NonEmptyPositions(trimmed) {
      NonEmptyPositionsComplete(trimmed, i);
    }
  }

  /**
   * A response that is not ok yields the compiled-in list unchanged; an ok one
   * yields one server per non-blank manifest line, whose priority is its
   * 0-based index among those lines, so priorities strictly increase.
   */
  lemma FindServersSpec(response: ManifestResponse)
    ensures !response.ok ==> FindServers(response) == Servers
    ensures response.ok ==>
      var lines := ManifestLines(response.body);
      var r := FindServers(response);
      && |r| == |lines|
      && (forall i :: 0 <= i < |r| ==> r[i].priority == i && r[i] == ParseServerLine(lines[i], i))
      && (forall i, j :: 0 <= i < j < |r| ==> r[i].priority < r[j].priority)
  {
  }

  /**
   * The fields of a parsed line: host and name are the trimmed first and
   * second comma fields, the path the trimmed third field or "" when it is
   * missing or empty. A line with no comma has no name.
   */
  lemma ParseServerLineSpec(line: string, priority: nat)
    ensures var raw := Split(line, ',');
      var s := ParseServerLine(line, priority);
      && s.hostname == Trim(raw[0])
      && s.name == (if |raw| > 1 then Some(Trim(raw[1])) else None)
      && s.path == (if |raw| > 2 then Trim(raw[2]) else "")
      && (',' !in line ==> s.name == None && s.path == "")
      && s.priority == priority
  {
    if ',' !in line {
      SplitNoSeparator(line, ',');
    }
  }

  /** A three-field line `host,name,path`: the fields come back trimmed. */
  lemma {:induction false} ThreeFieldLine(host: string, name: string, path: string, priority: nat)
    requires ',' !in host && ',' !in name && ',' !in path
    ensures ParseServerLine(host + "," + name + "," + path, priority)
         == Server(Some(Trim(name)), Trim(host), Trim(path), priority)
  {
    SplitThree(host, name, path);
    TrimAllThree(host, name, path);
  }

  lemma TrimAllThree(a: string, b: string, c: string)
    ensures TrimAll([a, b, c]) == [Trim(a), Trim(b), Trim(c)]
  {
  }

  lemma SplitThree(host: string, name: string, path: string)
    requires ',' !in host && ',' !in name && ',' !in path
    ensures Split(host + "," + name + "," + path, ',') == [host, name, path]
  {
    SplitNoSeparator(path, ',');
    SplitAtSeparator(name, ',', path);
    assert host + "," + name + "," + path == host + [','] + (name + [','] + path);
    SplitAtSeparator(host, ',', name + [','] + path);
  }

  /** A line ending in a comma after the name has an empty path. */
  lemma {:induction false} TrailingCommaEmptyPath(host: string, name: string, priority: nat)
    requires ',' !in host && ',' !in name
    ensures ParseServerLine(host + "," + name + ",", priority) == Server(Some(Trim(name)), Trim(host), "", priority)
  {
    ThreeFieldLine(host, name, "", priority);
    EmptyTail(host + "," + name + ",");
    TrimEmpty();
  }

  lemma EmptyTail(s: string)
    ensures s + "" == s
  {
  }

  lemma TrimEmpty()
    ensures Trim("") == ""
  {
  }

  /** The Bell line of the shipped manifest: its trailing comma leaves the path empty. */
  lemma BellLineHasEmptyPath(host: string, name: string, line: string)
    requires host == "ccportedgames.s3.us-west-2.amazonaws.com" && name == "Bell"
    requires line == host + "," + name + ","
    ensures ParseServerLine(line, 1) == Server(Some(name), host, "", 1)
  {
    BellHostHasNoComma();
    BellHostIsTrimmed(host);
    BellNameIsPlain(name);
    TrailingCommaEmptyPath(host, name, 1);
  }

  lemma BellHostHasNoComma()
    ensures ',' !in "ccportedgames.s3.us-west-2.amazonaws.com"
  {
  }

  lemma BellHostIsTrimmed(host: string)
    requires host == "ccportedgames.s3.us-west-2.amazonaws.com"
    ensures Trim(host) == host
  {
    assert host[0] == 'c' && host[|host| - 1] == 'm';
  }

  lemma BellNameIsPlain(name: string)
    requires name == "Bell"
    ensures ',' !in name && Trim(name) == name
  {
    assert name[0] == 'B' && name[|name| - 1] == 'l';
  }

  /**
   * An ok response yields one ad host per non-blank line: the hostname is
   * its first comma-separated piece trimmed, the ad code its second piece
   * trimmed when there is one; a response that is not ok yields the
   * fallback list.
   */
  lemma FindAHostsSpec(response: ManifestResponse)
    ensures !response.ok ==> FindAHosts(response) == AHosts
    ensures response.ok ==>
      var lines := ManifestLines(response.body);
      var r := FindAHosts(response);
      && |r| == |lines|
      && forall i :: 0 <= i < |r| ==>
           var raw := Split(lines[i], ',');
           && r[i].hostname == Trim(raw[0])
           && r[i].acode == (if |raw| > 1 then Some(Trim(raw[1])) else None)
  {
    if response.ok {
      var lines := ManifestLines(response.body);
      forall i | 0 <= i < |lines| ensures ParseAHostLine(lines[i]).hostname == Trim(Split(lines[i], ',')[0]) {
        ParseAHostLineSpec(lines[i]);
      }
    }
  }

  /**
   * One ad-host line: the hostname is the first piece trimmed, the ad code
   * the second piece trimmed, and a line without a comma has no ad code.
   */
  lemma ParseAHostLineSpec(line: string)
    ensures var raw := Split(line, ',');
      var h := ParseAHostLine(line);
      && h.hostname == Trim(raw[0])
      && h.acode == (if |raw| > 1 then Some(Trim(raw[1])) else None)
      && (',' !in line ==> h == AHost(Trim(line), None))
  {
    if ',' !in line {
      SplitNoSeparator(line, ',');
    }
  }

  /** A two-field line `host,code`: both fields come back trimmed. */
  lemma {:induction false} TwoFieldAHostLine(host: string, code: string)
    requires ',' !in host && ',' !in code
    ensures ParseAHostLine(host + "," + code) == AHost(Trim(host), Some(Trim(code)))
  {
    SplitNoSeparator(code, ',');
    SplitAtSeparator(host, ',', code);
    assert host + "," + code == host + [','] + code;
    TrimAllTwo(host, code);
  }

  /** Fields past the second do not change the ad host. */
  lemma {:induction false} AHostExtraFieldsIgnored(host: string, code: string, rest: string)
    requires ',' !in host && ',' !in code
    ensures ParseAHostLine(host + "," + code + "," + rest) == AHost(Trim(host), Some(Trim(code)))
  {
    SplitAtSeparator(code, ',', rest);
    assert host + "," + code + "," + rest == host + [','] + (code + [','] + rest);
    SplitAtSeparator(host, ',', code + [','] + rest);
    var parts := Split(host + "," + code + "," + rest, ',');
    assert parts[0] == host && parts[1] == code && |parts| >= 2;
  }

  lemma TrimAllTwo(a: string, b: string)
    ensures TrimAll([a, b]) == [Trim(a), Trim(b)]
  {
  }

  /**
   * The fallback list has six servers with pairwise distinct hostnames;
   * priorities are not unique, three servers share priority 2.
   */
  lemma FallbackServersShape()
    ensures |Servers| == 6
    ensures forall i, j :: 0 <= i < j < |Servers| ==> Servers[i].hostname != Servers[j].hostname
    ensures |set i | 0 <= i < |Servers| && Servers[i].priority == 2| == 3
  {
    assert (set i | 0 <= i < |Servers| && Servers[i].priority == 2) == {2, 3, 4};
  }
}
