/**
 * The text template the ProjectDiscovery plugin builds from an API answer
 * (`_format_vulnerability_data` in projectdiscovery.py): a YAML-like listing of the
 * vulnerability's info section, its HTTP requests and its payloads, one line per item, joined
 * with newlines.
 *
 * The source reads the answer with dict and list operations that raise on values of the wrong
 * kind (`.get` on a list, `split` on a number, joining a list that holds a number); such an
 * answer yields None here, the exception that `fetch_cve` catches. The specification is a
 * family of functions, one per block of lines, each taking the lines so far and giving them
 * back with the block appended (or None); the methods build the same lines with the source's
 * loops and are proved to agree with them.
 */
module TemplateFormat {
  import opened Common
  import opened Json

  // ---------------------------------------------------------------------------------------------
  // Line shapes.

  /** `info.get(key) or data.get(key)`. */
  function Field(info: seq<(string, Json)>, data: seq<(string, Json)>, key: string): Json
  {
    Or(Get(info, key), Get(data, key))
  }

  /** `if v: lines.append(f"{caption}{v}")`: one line exactly when the value is truthy. */
  function AddScalar(acc: seq<string>, caption: string, v: Json): (r: seq<string>)
    ensures |r| == |acc| + (if Truthy(v) then 1 else 0) && acc <= r
    ensures Truthy(v) ==> r[|acc|] == caption + Str(v)
  {
    if Truthy(v) then acc + [caption + Str(v)] else acc
  }

  /**
   * A truthy value printed on one line: joined with ", " when it is a list (which must then hold
   * only strings, or `join` raises), else as it is.
   */
  function AddListOrScalar(acc: seq<string>, caption: string, v: Json): (r: Option<seq<string>>)
    ensures !Truthy(v) ==> r == Some(acc)
    ensures Truthy(v) && !v.JArr? ==> r == Some(acc + [caption + Str(v)])
    ensures Truthy(v) && v.JArr? ==> (r.Some? <==> forall k :: 0 <= k < |v.items| ==> v.items[k].JStr?)
    ensures Truthy(v) && v.JArr? && r.Some? ==> r == Some(acc + [caption + Join(", ", Strings(v.items).value)])
  {
    if !Truthy(v) then Some(acc)
    else if v.JArr? then
      match JoinItems(", ", v.items)
      case None => None
      case Some(s) => Some(acc + [caption + s])
    else Some(acc + [caption + Str(v)])
  }

  /** `prefix + str(item) + suffix` for each item, in order. */
  function AddBullets(acc: seq<string>, prefix: string, items: seq<Json>, suffix: string): (r: seq<string>)
    ensures |r| == |acc| + |items| && acc <= r
    ensures forall k :: 0 <= k < |items| ==> r[|acc| + k] == prefix + Str(items[k]) + suffix
  {
    if items == [] then acc
    else AddBullets(acc, prefix, items[..|items| - 1], suffix) + [prefix + Str(items[|items| - 1]) + suffix]
  }

  /** Each piece behind the same indentation, in order. */
  function AddIndented(acc: seq<string>, indent: string, pieces: seq<string>): (r: seq<string>)
    ensures |r| == |acc| + |pieces| && acc <= r
    ensures forall k :: 0 <= k < |pieces| ==> r[|acc| + k] == indent + pieces[k]
  {
    if pieces == [] then acc
    else AddIndented(acc, indent, pieces[..|pieces| - 1]) + [indent + pieces[|pieces| - 1]]
  }

  /** A multi-line text: a header line, then each line of the text behind an indentation. */
  function AddBlock(acc: seq<string>, header: string, indent: string, text: string): (r: seq<string>)
    ensures |r| > |acc| + 1 && acc <= r && r[|acc|] == header
  {
    AddIndented(acc + [header], indent, Split(text, '\n'))
  }

  /** Each line with its first `n` characters dropped (a line shorter than that is kept). */
  function Dedent(n: nat, lines: seq<string>): (r: seq<string>)
    ensures |r| == |lines|
  {
    seq(|lines|, k requires 0 <= k < |lines| => if n <= |lines[k]| then lines[k][n..] else lines[k])
  }

  /**
   * The lines of a block give its text back: after the header, each line carries the
   * indentation, and the lines without it, joined with newlines, are the text.
   */
  lemma BlockRoundTrip(acc: seq<string>, header: string, indent: string, text: string)
    ensures var r := AddBlock(acc, header, indent, text);
            (forall k :: |acc| < k < |r| ==> indent <= r[k])
            && Join("\n", Dedent(|indent|, r[|acc| + 1..])) == text
  {
    var r := AddBlock(acc, header, indent, text);
    var pieces := Split(text, '\n');
    forall k | 0 <= k < |pieces|
      ensures r[|acc| + 1 + k] == indent + pieces[k]
    {
      assert r[|acc + [header]| + k] == indent + pieces[k];
    }
    assert Dedent(|indent|, r[|acc| + 1..]) == pieces by {
      forall k | 0 <= k < |pieces|
        ensures Dedent(|indent|, r[|acc| + 1..])[k] == pieces[k]
      {
        assert r[|acc| + 1..][k] == indent + pieces[k];
      }
    }
    forall k | |acc| < k < |r|
      ensures indent <= r[k]
    {
      assert r[|acc| + 1 + (k - |acc| - 1)] == indent + pieces[k - |acc| - 1];
    }
    JoinSplit(text, '\n');
  }

  /** A truthy value that is a number or a boolean: looping over it raises a TypeError. */
  predicate IterRaises(v: Json)
  {
    Truthy(v) && (v.JNum? || v.JBool?)
  }

  /** A caption line and one bullet per item of an iterable (a list's items, a string's characters, a dict's keys). */
  function AddIterated(acc: seq<string>, caption: string, prefix: string, v: Json, suffix: string): (r: Option<seq<string>>)
    ensures !Truthy(v) ==> r == Some(acc)
    ensures Truthy(v) ==> (r.Some? <==> !(v.JNum? || v.JBool?))
    ensures r.Some? ==> acc <= r.value
  {
    if !Truthy(v) then Some(acc)
    else
      match Iter(v)
      case None => None
      case Some(items) => Some(AddBullets(acc + [caption], prefix, items, suffix))
  }

  // ---------------------------------------------------------------------------------------------
  // The info section.

  /** `info = data.get("info", {}) or data`: anything but a dict there raises on the first `.get`. */
  function InfoOf(data: seq<(string, Json)>): (r: Option<seq<(string, Json)>>)
    ensures Truthy(GetOr(data, "info", JObj([]))) ==>
              (r.Some? <==> GetOr(data, "info", JObj([])).JObj?) && (r.Some? ==> r == Some(GetOr(data, "info", JObj([])).fields))
    ensures !Truthy(GetOr(data, "info", JObj([]))) ==> r == Some(data)
  {
    var v := Or(GetOr(data, "info", JObj([])), JObj(data));
    if v.JObj? then Some(v.fields) else None
  }

  /** The four opening lines; the name is info's, else the answer's, else the id. */
  function Opening(cveId: string, info: seq<(string, Json)>, data: seq<(string, Json)>): seq<string>
  {
    var name := Field(info, data, "name");
    ["id: " + cveId, "", "info:", "  name: " + (if Truthy(name) then Str(name) else cveId)]
  }

  /** `description: |` and the description's lines; only a string can be split. */
  function AddDescription(acc: seq<string>, v: Json): (r: Option<seq<string>>)
    ensures !Truthy(v) ==> r == Some(acc)
    ensures Truthy(v) ==> (r.Some? <==> v.JStr?)
    ensures r.Some? ==> acc <= r.value
  {
    if !Truthy(v) then Some(acc)
    else if v.JStr? then Some(AddBlock(acc, "  description: |", "    ", v.s))
    else None
  }

  /** `classification:` and the lines of the scores it holds; only a dict has `.get`. */
  function AddClassification(acc: seq<string>, v: Json): (r: Option<seq<string>>)
    ensures !Truthy(v) ==> r == Some(acc)
    ensures Truthy(v) && !v.JObj? ==> r.None?
    ensures r.Some? ==> acc <= r.value
    ensures r.Some? && Truthy(v) ==> |r.value| > |acc| && r.value[|acc|] == "  classification:"
  {
    if !Truthy(v) then Some(acc)
    else if !v.JObj? then None
    else
      var c := v.fields;
      var scores := AddScalar(AddScalar(AddScalar(acc + ["  classification:"],
                       "    cvss-metrics: ", Get(c, "cvss-metrics")),
                       "    cvss-score: ", Get(c, "cvss-score")),
                       "    cve-id: ", Get(c, "cve-id"));
      match AddListOrScalar(scores, "    cwe-id: ", Get(c, "cwe-id"))
      case None => None
      case Some(withCwe) => Some(AddScalar(withCwe, "    epss-score: ", Get(c, "epss-score")))
  }

  /** `remediation: |` and the lines of its text. */
  function AddRemediation(acc: seq<string>, v: Json): (r: seq<string>)
    ensures !Truthy(v) ==> r == acc
    ensures acc <= r
  {
    if Truthy(v) then AddBlock(acc, "  remediation: |", "    ", Str(v)) else acc
  }

  // ---------------------------------------------------------------------------------------------
  // The HTTP requests.

  /** One `k: v` line per header, in the dict's order. */
  function AddHeaderLines(acc: seq<string>, headers: seq<(string, Json)>): (r: seq<string>)
    ensures |r| == |acc| + |headers| && acc <= r
    ensures forall k :: 0 <= k < |headers| ==> r[|acc| + k] == "      " + headers[k].0 + ": " + Str(headers[k].1)
  {
    if headers == [] then acc
    else
      var last := headers[|headers| - 1];
      AddHeaderLines(acc, headers[..|headers| - 1]) + ["      " + last.0 + ": " + Str(last.1)]
  }

  /** `headers:` and its lines; headers that are not a dict have no `.items()`. */
  function AddHeaders(acc: seq<string>, v: Json): (r: Option<seq<string>>)
    ensures r.None? <==> Truthy(v) && !v.JObj?
    ensures r.Some? ==> acc <= r.value
  {
    if !Truthy(v) then Some(acc)
    else if v.JObj? then Some(AddHeaderLines(acc + ["    headers:"], v.fields))
    else None
  }

  /** A matcher whose words or regexes cannot be looped over. */
  predicate MatcherRaises(m: Json)
  {
    m.JObj? && (IterRaises(Get(m.fields, "words")) || IterRaises(Get(m.fields, "regex")))
  }

  /** One matcher: its type (default "word"), words and regexes; a matcher that is not a dict prints nothing. */
  function AddMatcher(acc: seq<string>, m: Json): (r: Option<seq<string>>)
    ensures r.None? <==> MatcherRaises(m)
    ensures !m.JObj? ==> r == Some(acc)
    ensures r.Some? ==> acc <= r.value
  {
    if !m.JObj? then Some(acc)
    else
      var f := m.fields;
      match AddIterated(acc + ["      - type: " + Str(GetOr(f, "type", JStr("word")))], "        words:", "          - \"", Get(f, "words"), "\"")
      case None => None
      case Some(withWords) => AddIterated(withWords, "        regex:", "          - \"", Get(f, "regex"), "\"")
  }

  /** Each matcher in order; the list raises exactly when one of its matchers does. */
  function AddMatcherList(acc: seq<string>, ms: seq<Json>): (r: Option<seq<string>>)
    ensures r.None? <==> exists k :: 0 <= k < |ms| && MatcherRaises(ms[k])
    ensures r.Some? ==> acc <= r.value
  {
    if ms == [] then Some(acc)
    else
      assert forall k :: 0 <= k < |ms| - 1 ==> ms[..|ms| - 1][k] == ms[k];
      match AddMatcherList(acc, ms[..|ms| - 1])
      case None => None
      case Some(before) => AddMatcher(before, ms[|ms| - 1])
  }

  /** A truthy list of matchers one of which raises. */
  predicate MatchersRaise(v: Json)
  {
    Truthy(v) && v.JArr? && exists k :: 0 <= k < |v.items| && MatcherRaises(v.items[k])
  }

  /** `matchers:` and, when they are a list, each matcher. */
  function AddMatchers(acc: seq<string>, v: Json): (r: Option<seq<string>>)
    ensures r.None? <==> MatchersRaise(v)
    ensures !Truthy(v) ==> r == Some(acc)
    ensures r.Some? && Truthy(v) ==> |r.value| > |acc| && r.value[|acc|] == "    matchers:"
    ensures r.Some? ==> acc <= r.value
  {
    if !Truthy(v) then Some(acc)
    else if v.JArr? then AddMatcherList(acc + ["    matchers:"], v.items)
    else Some(acc + ["    matchers:"])
  }

  /** The printed path: the first of a list (or "/" for an empty one), or the value itself. */
  function PathOf(path: Json): Json
  {
    if path.JArr? then (if path.items != [] then path.items[0] else JStr("/")) else path
  }

  /** The fixed first lines of a request: its method and its first path. */
  function RequestHead(f: seq<(string, Json)>): seq<string>
  {
    ["  - method: " + Str(GetOr(f, "method", JStr("GET"))),
     "    path:",
     "      - " + Str(PathOf(GetOr(f, "path", JArr([JStr("/")]))))]
  }

  /** A dict request whose headers are truthy but not a dict, or one of whose matchers raises. */
  predicate RequestRaises(req: Json)
  {
    req.JObj?
    && ((Truthy(Get(req.fields, "headers")) && !Get(req.fields, "headers").JObj?)
        || MatchersRaise(Or(Get(req.fields, "matchers"), Get(req.fields, "matchers-condition"))))
  }

  /** One request; a request that is not a dict prints nothing. */
  function AddRequest(acc: seq<string>, req: Json): (r: Option<seq<string>>)
    ensures r.None? <==> RequestRaises(req)
    ensures !req.JObj? ==> r == Some(acc)
    ensures r.Some? ==> acc <= r.value
    ensures r.Some? && req.JObj? ==> |r.value| >= |acc| + 3 && r.value[|acc|..|acc| + 3] == RequestHead(req.fields)
  {
    if !req.JObj? then Some(acc)
    else
      var f := req.fields;
      var head := acc + RequestHead(f);
      match AddHeaders(head, Get(f, "headers"))
      case None => None
      case Some(withHeaders) =>
        var body := Get(f, "body");
        var withBody := if Truthy(body) then AddBlock(withHeaders, "    body: |", "      ", Str(body)) else withHeaders;
        var r := AddMatchers(withBody, Or(Get(f, "matchers"), Get(f, "matchers-condition")));
        assert r.Some? ==> head <= r.value;
        assert r.Some? ==> r.value[|acc|..|acc| + 3] == head[|acc|..];
        r
  }

  /** Each request in order; the list raises exactly when one of its requests does. */
  function AddRequestList(acc: seq<string>, reqs: seq<Json>): (r: Option<seq<string>>)
    ensures r.None? <==> exists k :: 0 <= k < |reqs| && RequestRaises(reqs[k])
    ensures r.Some? ==> acc <= r.value
  {
    if reqs == [] then Some(acc)
    else
      assert forall k :: 0 <= k < |reqs| - 1 ==> reqs[..|reqs| - 1][k] == reqs[k];
      match AddRequestList(acc, reqs[..|reqs| - 1])
      case None => None
      case Some(before) => AddRequest(before, reqs[|reqs| - 1])
  }

  /** A blank line, `http:`, and each request; the value must be iterable. */
  function AddHttp(acc: seq<string>, v: Json): (r: Option<seq<string>>)
    ensures !Truthy(v) ==> r == Some(acc)
    ensures r.None? <==> IterRaises(v) || (Truthy(v) && v.JArr? && exists k :: 0 <= k < |v.items| && RequestRaises(v.items[k]))
    ensures r.Some? && Truthy(v) ==> |r.value| >= |acc| + 2 && r.value[|acc|..|acc| + 2] == ["", "http:"]
    ensures r.Some? ==> acc <= r.value
  {
    if !Truthy(v) then Some(acc)
    else
      match Iter(v)
      case None => None
      case Some(reqs) => AddRequestList(acc + ["", "http:"], reqs)
  }

  /**
   * Each request that is a dict opens with its method (GET only when the key is absent) and its
   * first path ("/" when the key is absent or the list is empty).
   */
  lemma RequestOpensWithMethodAndPath(acc: seq<string>, f: seq<(string, Json)>)
    requires AddRequest(acc, JObj(f)).Some?
    ensures var r := AddRequest(acc, JObj(f)).value;
            |r| >= |acc| + 3
            && r[|acc|] == "  - method: " + (if Lookup(f, "method").Some? then Str(Lookup(f, "method").value) else "GET")
            && r[|acc| + 1] == "    path:"
            && r[|acc| + 2] == "      - " + match Lookup(f, "path")
                                          case None => "/"
                                          case Some(p) => if p.JArr? && p.items == [] then "/"
                                                          else if p.JArr? then Str(p.items[0]) else Str(p)
  {
    var r := AddRequest(acc, JObj(f)).value;
    assert r[|acc|..|acc| + 3] == RequestHead(f);
    assert r[|acc|] == r[|acc|..|acc| + 3][0];
    assert r[|acc| + 1] == r[|acc|..|acc| + 3][1];
    assert r[|acc| + 2] == r[|acc|..|acc| + 3][2];
  }

  // ---------------------------------------------------------------------------------------------
  // Payloads and the whole template.

  /** The payload section; a dict is printed by `json.dumps`, given here as `dumps`. */
  function AddPayload(acc: seq<string>, v: Json, dumps: Json -> string): (r: seq<string>)
    ensures !Truthy(v) ==> r == acc
    ensures acc <= r
  {
    if !Truthy(v) then acc
    else
      var section := acc + ["", "# Payload Information:"];
      if v.JObj? then section + ["# " + dumps(v)]
      else if v.JArr? then AddBullets(section, "#   - ", v.items, "")
      else section + ["# " + Str(v)]
  }

  /** The info lines after the name: author, severity, description and references. */
  function AddSummary(acc: seq<string>, info: seq<(string, Json)>, d: seq<(string, Json)>): (r: Option<seq<string>>)
    ensures r.Some? ==> acc <= r.value
  {
    match AddListOrScalar(acc, "  author: ", Field(info, d, "author"))
    case None => None
    case Some(l1) =>
      var l2 := AddScalar(l1, "  severity: ", Field(info, d, "severity"));
      match AddDescription(l2, Field(info, d, "description"))
      case None => None
      case Some(l3) => AddIterated(l3, "  reference:", "    - ", Field(info, d, "references"), "")
  }

  /** The rest of the info lines: classification, tags and remediation. */
  function AddDetails(acc: seq<string>, info: seq<(string, Json)>, d: seq<(string, Json)>): (r: Option<seq<string>>)
    ensures r.Some? ==> acc <= r.value
  {
    match AddClassification(acc, Field(info, d, "classification"))
    case None => None
    case Some(l1) =>
      match AddListOrScalar(l1, "  tags: ", Field(info, d, "tags"))
      case None => None
      case Some(l2) => Some(AddRemediation(l2, Field(info, d, "remediation")))
  }

  /** The lines after the opening ones, block by block in the source's order. */
  function AddSections(acc: seq<string>, info: seq<(string, Json)>, d: seq<(string, Json)>, dumps: Json -> string): (r: Option<seq<string>>)
    ensures r.Some? ==> acc <= r.value
  {
    match AddSummary(acc, info, d)
    case None => None
    case Some(l1) =>
      match AddDetails(l1, info, d)
      case None => None
      case Some(l2) =>
        match AddHttp(l2, Or(Get(d, "http"), Get(d, "requests")))
        case None => None
        case Some(l3) => Some(AddPayload(l3, Or(Get(d, "payload"), Get(d, "payloads")), dumps))
  }

  /** The lines of the template, or None when the answer is read in a way that raises. */
  function FormatLines(cveId: string, data: Json, dumps: Json -> string): (r: Option<seq<string>>)
    ensures !data.JObj? ==> r.None?
  {
    if !data.JObj? then None
    else
      match InfoOf(data.fields)
      case None => None
      case Some(info) => AddSections(Opening(cveId, info, data.fields), info, data.fields, dumps)
  }

  /** `_format_vulnerability_data` as a value: the lines joined with newlines. */
  function Format(cveId: string, data: Json, dumps: Json -> string): Option<string>
  {
    match FormatLines(cveId, data, dumps)
    case None => None
    case Some(lines) => Some(Join("\n", lines))
  }

  /** Joining two non-empty runs of lines puts one separator between them. */
  lemma {:induction false} JoinConcat(sep: string, xs: seq<string>, ys: seq<string>)
    requires xs != [] && ys != []
    ensures Join(sep, xs + ys) == Join(sep, xs) + sep + Join(sep, ys)
  {
    if |xs| == 1 {
      assert (xs + ys)[1..] == ys;
    } else {
      assert (xs + ys)[1..] == xs[1..] + ys;
      JoinConcat(sep, xs[1..], ys);
    }
  }

  /** A joined run of lines is a prefix of the joined run it starts. */
  lemma JoinPrefix(sep: string, xs: seq<string>, ys: seq<string>)
    requires xs != []
    ensures Join(sep, xs) <= Join(sep, xs + ys)
  {
    if ys == [] {
      assert xs + ys == xs;
    } else {
      JoinConcat(sep, xs, ys);
    }
  }

  /** The four opening lines, joined. */
  lemma OpeningText(cveId: string, shown: string)
    ensures Join("\n", ["id: " + cveId, "", "info:", "  name: " + shown]) == "id: " + cveId + "\n\ninfo:\n  name: " + shown
  {
    var head := ["id: " + cveId, "", "info:", "  name: " + shown];
    assert Join("\n", head[3..]) == "  name: " + shown;
    assert Join("\n", head[2..]) == "info:" + "\n" + Join("\n", head[3..]) by { assert head[2..][1..] == head[3..]; }
    assert Join("\n", head[1..]) == "" + "\n" + Join("\n", head[2..]) by { assert head[1..][1..] == head[2..]; }
    assert Join("\n", head) == head[0] + "\n" + Join("\n", head[1..]);
  }

  /**
   * The template opens with the id line, a blank line, `info:` and the name line, whose name is
   * the info section's, else the answer's, else the id itself.
   */
  lemma FormatOpening(cveId: string, data: Json, dumps: Json -> string)
    requires Format(cveId, data, dumps).Some?
    ensures data.JObj? && InfoOf(data.fields).Some?
    ensures var info, d := InfoOf(data.fields).value, data.fields;
            var name := Field(info, d, "name");
            var shown := if Truthy(name) then Str(name) else cveId;
            var lines := FormatLines(cveId, data, dumps).value;
            |lines| >= 4 && lines[..4] == ["id: " + cveId, "", "info:", "  name: " + shown]
            && "id: " + cveId + "\n\ninfo:\n  name: " + shown <= Format(cveId, data, dumps).value
  {
    var info, d := InfoOf(data.fields).value, data.fields;
    var head := Opening(cveId, info, d);
    var lines := AddSections(head, info, d, dumps).value;
    assert lines == FormatLines(cveId, data, dumps).value;
    assert head <= lines;
    assert lines == head + lines[4..];
    JoinPrefix("\n", head, lines[4..]);
    var name := Field(info, d, "name");
    OpeningText(cveId, if Truthy(name) then Str(name) else cveId);
  }

  // ---------------------------------------------------------------------------------------------
  // The source's loops.

  method AppendBullets(lines: seq<string>, prefix: string, items: seq<Json>, suffix: string) returns (out: seq<string>)
    ensures out == AddBullets(lines, prefix, items, suffix)
  {
    out := lines;
    var i := 0;
    while i < |items|
      invariant 0 <= i <= |items|
      invariant out == AddBullets(lines, prefix, items[..i], suffix)
    {
      assert items[..i + 1][..i] == items[..i];
      out := out + [prefix + Str(items[i]) + suffix];
      i := i + 1;
    }
    assert items[..i] == items;
  }

  /** `lines.append(header)`, then one indented line per line of the text. */
  method AppendBlock(lines: seq<string>, header: string, indent: string, text: string) returns (out: seq<string>)
    ensures out == AddBlock(lines, header, indent, text)
  {
    out := lines + [header];
    var pieces := Split(text, '\n');
    var i := 0;
    while i < |pieces|
      invariant 0 <= i <= |pieces|
      invariant out == AddIndented(lines + [header], indent, pieces[..i])
    {
      assert pieces[..i + 1][..i] == pieces[..i];
      out := out + [indent + pieces[i]];
      i := i + 1;
    }
    assert pieces[..i] == pieces;
  }

  /** `for x in v: lines.append(...)` after a caption line, when `v` is truthy. */
  method AppendIterated(lines: seq<string>, caption: string, prefix: string, v: Json, suffix: string) returns (out: Option<seq<string>>)
    ensures out == AddIterated(lines, caption, prefix, v, suffix)
  {
    if !Truthy(v) {
      return Some(lines);
    }
    var items := Iter(v);
    if items.None? {
      return None;
    }
    var appended := AppendBullets(lines + [caption], prefix, items.value, suffix);
    return Some(appended);
  }

  method AppendHeaders(lines: seq<string>, headers: seq<(string, Json)>) returns (out: seq<string>)
    ensures out == AddHeaderLines(lines, headers)
  {
    out := lines;
    var i := 0;
    while i < |headers|
      invariant 0 <= i <= |headers|
      invariant out == AddHeaderLines(lines, headers[..i])
    {
      assert headers[..i + 1][..i] == headers[..i];
      var (k, v) := headers[i];
      out := out + ["      " + k + ": " + Str(v)];
      i := i + 1;
    }
    assert headers[..i] == headers;
  }

  method AppendMatcher(lines: seq<string>, m: Json) returns (out: Option<seq<string>>)
    ensures out == AddMatcher(lines, m)
  {
    if !m.JObj? {
      return Some(lines);
    }
    var f := m.fields;
    var acc := lines + ["      - type: " + Str(GetOr(f, "type", JStr("word")))];
    var words := AppendIterated(acc, "        words:", "          - \"", Get(f, "words"), "\"");
    if words.None? {
      return None;
    }
    out := AppendIterated(words.value, "        regex:", "          - \"", Get(f, "regex"), "\"");
  }

  /** `for m in matchers`: each matcher in order. */
  method AppendMatcherList(lines: seq<string>, ms: seq<Json>) returns (out: Option<seq<string>>)
    ensures out == AddMatcherList(lines, ms)
  {
    var acc := lines;
    var i := 0;
    while i < |ms|
      invariant 0 <= i <= |ms|
      invariant Some(acc) == AddMatcherList(lines, ms[..i])
    {
      assert ms[..i + 1][..i] == ms[..i];
      var next := AppendMatcher(acc, ms[i]);
      if next.None? {
        AddMatcherListStaysNone(lines, ms, i + 1);
        return None;
      }
      acc := next.value;
      i := i + 1;
    }
    assert ms[..i] == ms;
    out := Some(acc);
  }

  /** One request of the HTTP section. */
  method AppendRequest(lines: seq<string>, req: Json) returns (out: Option<seq<string>>)
    ensures out == AddRequest(lines, req)
  {
    if !req.JObj? {
      return Some(lines);
    }
    var f := req.fields;
    var method_ := GetOr(f, "method", JStr("GET"));
    var path := GetOr(f, "path", JArr([JStr("/")]));
    if path.JArr? {
      path := if path.items != [] then path.items[0] else JStr("/");
    }
    var acc := lines + ["  - method: " + Str(method_)] + ["    path:"] + ["      - " + Str(path)];
    assert acc == lines + RequestHead(f);
    var headers := Get(f, "headers");
    if Truthy(headers) {
      if !headers.JObj? {
        return None;
      }
      acc := AppendHeaders(acc + ["    headers:"], headers.fields);
    }
    var body := Get(f, "body");
    if Truthy(body) {
      acc := AppendBlock(acc, "    body: |", "      ", Str(body));
    }
    var matchers := Or(Get(f, "matchers"), Get(f, "matchers-condition"));
    if Truthy(matchers) {
      acc := acc + ["    matchers:"];
      if matchers.JArr? {
        var listed := AppendMatcherList(acc, matchers.items);
        if listed.None? {
          return None;
        }
        acc := listed.value;
      }
    }
    out := Some(acc);
  }

  /** Once a matcher raised, the whole list raises. */
  lemma {:induction false} AddMatcherListStaysNone(acc: seq<string>, ms: seq<Json>, n: nat)
    requires n <= |ms| && AddMatcherList(acc, ms[..n]).None?
    ensures AddMatcherList(acc, ms).None?
    decreases |ms| - n
  {
    if n < |ms| {
      assert ms[..n + 1][..n] == ms[..n];
      AddMatcherListStaysNone(acc, ms, n + 1);
    } else {
      assert ms[..n] == ms;
    }
  }

  /** Once a request raised, the whole list raises. */
  lemma {:induction false} AddRequestListStaysNone(acc: seq<string>, reqs: seq<Json>, n: nat)
    requires n <= |reqs| && AddRequestList(acc, reqs[..n]).None?
    ensures AddRequestList(acc, reqs).None?
    decreases |reqs| - n
  {
    if n < |reqs| {
      assert reqs[..n + 1][..n] == reqs[..n];
      AddRequestListStaysNone(acc, reqs, n + 1);
    } else {
      assert reqs[..n] == reqs;
    }
  }

  /** The HTTP section: `for i, req in enumerate(http_requests)`. */
  method AppendHttp(lines: seq<string>, requests: Json) returns (out: Option<seq<string>>)
    ensures out == AddHttp(lines, requests)
  {
    if !Truthy(requests) {
      return Some(lines);
    }
    var reqs := Iter(requests);
    if reqs.None? {
      return None;
    }
    var acc := lines + ["", "http:"];
    ghost var start := acc;
    var i := 0;
    while i < |reqs.value|
      invariant 0 <= i <= |reqs.value|
      invariant Some(acc) == AddRequestList(start, reqs.value[..i])
    {
      assert reqs.value[..i + 1][..i] == reqs.value[..i];
      var next := AppendRequest(acc, reqs.value[i]);
      if next.None? {
        AddRequestListStaysNone(start, reqs.value, i + 1);
        return None;
      }
      acc := next.value;
      i := i + 1;
    }
    assert reqs.value[..i] == reqs.value;
    out := Some(acc);
  }

  /** The payload section. */
  method AppendPayload(lines: seq<string>, payload: Json, dumps: Json -> string) returns (out: seq<string>)
    ensures out == AddPayload(lines, payload, dumps)
  {
    out := lines;
    if Truthy(payload) {
      out := out + ["", "# Payload Information:"];
      if payload.JObj? {
        out := out + ["# " + dumps(payload)];
      } else if payload.JArr? {
        out := AppendBullets(out, "#   - ", payload.items, "");
      } else {
        out := out + ["# " + Str(payload)];
      }
    }
  }

  method AppendSummary(lines: seq<string>, info: seq<(string, Json)>, d: seq<(string, Json)>) returns (out: Option<seq<string>>)
    ensures out == AddSummary(lines, info, d)
  {
    var step := AddListOrScalar(lines, "  author: ", Field(info, d, "author"));
    if step.None? {
      return None;
    }
    var acc := step.value;
    var severity := Field(info, d, "severity");
    if Truthy(severity) {
      acc := acc + ["  severity: " + Str(severity)];
    }
    var description := Field(info, d, "description");
    if Truthy(description) {
      if !description.JStr? {
        return None;
      }
      acc := AppendBlock(acc, "  description: |", "    ", description.s);
    }
    out := AppendIterated(acc, "  reference:", "    - ", Field(info, d, "references"), "");
  }

  method AppendDetails(lines: seq<string>, info: seq<(string, Json)>, d: seq<(string, Json)>) returns (out: Option<seq<string>>)
    ensures out == AddDetails(lines, info, d)
  {
    var step := AddClassification(lines, Field(info, d, "classification"));
    if step.None? {
      return None;
    }
    step := AddListOrScalar(step.value, "  tags: ", Field(info, d, "tags"));
    if step.None? {
      return None;
    }
    var acc := step.value;
    var remediation := Field(info, d, "remediation");
    if Truthy(remediation) {
      acc := AppendBlock(acc, "  remediation: |", "    ", Str(remediation));
    }
    return Some(acc);
  }

  /** The blocks after the opening lines, in the source's order. */
  method AppendSections(lines: seq<string>, info: seq<(string, Json)>, d: seq<(string, Json)>, dumps: Json -> string)
    returns (out: Option<seq<string>>)
    ensures out == AddSections(lines, info, d, dumps)
  {
    var step := AppendSummary(lines, info, d);
    if step.None? {
      return None;
    }
    step := AppendDetails(step.value, info, d);
    if step.None? {
      return None;
    }
    step := AppendHttp(step.value, Or(Get(d, "http"), Get(d, "requests")));
    if step.None? {
      return None;
    }
    var acc := AppendPayload(step.value, Or(Get(d, "payload"), Get(d, "payloads")), dumps);
    return Some(acc);
  }

  /** `_format_vulnerability_data`: the opening lines, the sections, joined with newlines. */
  method FormatVulnerabilityData(cveId: string, data: Json, dumps: Json -> string) returns (r: Option<string>)
    ensures r == Format(cveId, data, dumps)
  {
    if !data.JObj? {
      return None;
    }
    var d := data.fields;
    var infoValue := Or(GetOr(d, "info", JObj([])), data);
    if !infoValue.JObj? {
      return None;
    }
    var info := infoValue.fields;
    assert InfoOf(d) == Some(info);
    var lines := ["id: " + cveId, "", "info:"];
    var name := Field(info, d, "name");
    lines := lines + ["  name: " + (if Truthy(name) then Str(name) else cveId)];
    assert lines == Opening(cveId, info, d);
    var sections := AppendSections(lines, info, d, dumps);
    if sections.None? {
      return None;
    }
    return Some(Join("\n", sections.value));
  }
}
