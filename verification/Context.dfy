/**
 Bounded context packages (context/builder.py): the required sections in full, then every
 optional section in full, cut to whole characters, or left out, within a byte limit.
 */
module Context {
  import opened Options
  import opened Utf8
  import Ordering

  /** An optional section, with the name it has among the truncated ones. */
  datatype Section = Section(title: string, mark: string, content: string)

  datatype ContextInput = ContextInput(
    nodeResponsibility: string, contract: string, globalPolicy: string, gitStatus: string, upstreamHandoff: string,
    failureEvidence: string, fileRefs: set<string>, artifactRefs: set<string>, outputSchema: string)

  datatype ContextPackage = ContextPackage(
    rendered: string, fileRefs: seq<string>, artifactRefs: seq<string>, truncatedSections: seq<string>)

  const MARKER := "\n[truncated]"

  // ---- str.strip, "\n".join, rendering ----

  /** The characters that `str.strip` removes. */
  predicate IsSpace(c: char) {
    var n := c as int;
    || 0x09 <= n <= 0x0D || 0x1C <= n <= 0x20 || n == 0x85 || n == 0xA0 || n == 0x1680 || 0x2000 <= n <= 0x200A
    || n == 0x2028 || n == 0x2029 || n == 0x202F || n == 0x205F || n == 0x3000
  }

  function StripLeft(s: string): string { if s != "" && IsSpace(s[0]) then StripLeft(s[1..]) else s }

  function StripRight(s: string): string { if s != "" && IsSpace(s[|s| - 1]) then StripRight(s[..|s| - 1]) else s }

  function Strip(s: string): string { StripRight(StripLeft(s)) }

  function JoinLines(lines: seq<string>): string {
    if lines == [] then "" else if |lines| == 1 then lines[0] else lines[0] + "\n" + JoinLines(lines[1..])
  }

  function Header(title: string): string { "\n## " + title + "\n" }

  function Render(title: string, content: string): string { Header(title) + Strip(content) + "\n" }

  function RenderRequired(source: ContextInput): string {
    Render("NODE RESPONSIBILITY", source.nodeResponsibility) + Render("IMMUTABLE CONTRACT", source.contract)
    + Render("GLOBAL POLICY", source.globalPolicy) + Render("OUTPUT SCHEMA", source.outputSchema)
  }

  function Size(s: string): nat { |Encode(s)| }

  lemma SizeAdds(s: string, t: string)
    ensures Size(s + t) == Size(s) + Size(t)
  {
    EncodeAppends(s, t);
  }

  // ---- truncation ----

  /** The longest prefix of whole characters that leaves room for the marker, and the marker. */
  function Truncated(value: string, room: nat): string
    requires room >= Size(MARKER)
  {
    value[..Fit(value, room - Size(MARKER))] + MARKER
  }

  lemma MarkerSize()
    ensures Size(MARKER) == 12
  {
    assert MARKER == "\n" + "[truncated]";
    AsciiSize(MARKER);
  }

  lemma {:induction false} AsciiSize(s: string)
    requires forall i | 0 <= i < |s| :: s[i] as int < 0x80
    ensures Size(s) == |s|
  {
    if s != "" { AsciiSize(s[1..]); }
  }

  /** The truncated text fits its room, and one more character would not have fitted. */
  lemma TruncatedIsLongest(value: string, room: nat)
    requires room >= Size(MARKER)
    ensures Size(Truncated(value, room)) <= room
    ensures var k := Fit(value, room - Size(MARKER));
      Truncated(value, room) == value[..k] + MARKER && forall j | k < j <= |value| :: Size(value[..j] + MARKER) > room
  {
    hide Encode, Fit;
    var n := room - Size(MARKER);
    FitIsLongest(value, n);
    SizeAdds(value[..Fit(value, n)], MARKER);
    forall j | Fit(value, n) < j <= |value| ensures Size(value[..j] + MARKER) > room { SizeAdds(value[..j], MARKER); }
  }

  /** Cut the bytes, then drop bytes until they decode or none is left. */
  method KeepWhole(value: string, allowance: nat) returns (kept: string, ghost dropped: nat)
    ensures kept == value[..Fit(value, allowance)] && |Encode(kept)| <= allowance
    ensures dropped <= 3
  {
    hide Encode, Decode, Fit;
    var bytes := Encode(value);
    var encoded := if |bytes| <= allowance then bytes else bytes[..allowance];
    ghost var k := Fit(value, allowance);
    FitIsLongest(value, allowance);
    EncodeOfPrefix(value, k);
    CutKeepsFit(value, allowance, |encoded|);
    dropped := 0;
    while encoded != []
      invariant |encoded| + dropped == (if |bytes| <= allowance then |bytes| else allowance)
      invariant encoded == bytes[..|encoded|] && |Encode(value[..k])| <= |encoded|
      decreases |encoded|
    {
      CutIsFit(value, allowance, |encoded|);
      var decoded := Decode(encoded);
      if decoded.Some? { return decoded.value, dropped; }
      encoded := encoded[..|encoded| - 1];
      dropped := dropped + 1;
    }
    NothingFits(value, k);
    kept := "";
  }

  /**
   `_truncate_utf8`. Without room for the marker only its end is left; without any room, where
   `suffix[-0:]` is all of it, the result overflows.
   */
  method TruncateUtf8(value: string, maxBytes: nat) returns (text: string)
    ensures Size(MARKER) == 12 && (maxBytes >= 12 ==> text == Truncated(value, maxBytes))
    ensures |MARKER| == 12 && (0 < maxBytes < 12 ==> text == MARKER[12 - maxBytes..]) && (maxBytes == 0 ==> text == MARKER)
    ensures Size(text) <= maxBytes <==> maxBytes > 0
  {
    hide Encode, Fit;
    MarkerSize();
    var allowance := if maxBytes >= 12 then maxBytes - 12 else 0;
    var kept, _ := KeepWhole(value, allowance);
    SizeAdds(kept, MARKER);
    if kept != "" {
      PrefixesGrow(value, 0, |kept|);
      return kept + MARKER;
    }
    assert kept + MARKER == MARKER;
    text := if 0 < maxBytes < |MARKER| then MARKER[|MARKER| - maxBytes..] else MARKER;
    AsciiSize(text);
  }

  lemma CutKeepsFit(value: string, n: nat, size: nat)
    requires size == (if |Encode(value)| <= n then |Encode(value)| else n)
    ensures |Encode(value[..Fit(value, n)])| <= size && size - |Encode(value[..Fit(value, n)])| <= 3
  {
    hide Encode, Fit;
    FitIsLongest(value, n);
    EncodeOfPrefix(value, Fit(value, n));
    assert value[..|value|] == value;
  }

  /** Between the fitting prefix and the allowance no cut decodes but the fitting prefix itself. */
  lemma CutIsFit(value: string, n: nat, m: nat)
    requires |Encode(value[..Fit(value, n)])| <= m <= n && m <= |Encode(value)|
    ensures Decode(Encode(value)[..m]).Some? <==> m == |Encode(value[..Fit(value, n)])|
    ensures Decode(Encode(value)[..m]).Some? ==> Decode(Encode(value)[..m]).value == value[..Fit(value, n)]
  {
    hide Encode, Decode, Fit;
    var k := Fit(value, n);
    FitIsLongest(value, n);
    CutDecodesExactlyWhen(value, m);
    if j: nat :| j <= |value| && |Encode(value[..j])| == m {
      if j < k { PrefixesGrow(value, j, k); }
      assert j <= k;
    }
    if Decode(Encode(value)[..m]).Some? {
      EncodeOfPrefix(value, k);
      assert Encode(value)[..m] == Encode(value[..k]);
      DecodeEncode(value[..k]);
    }
  }

  lemma PrefixesGrow(value: string, j: nat, k: nat)
    requires j < k <= |value|
    ensures |Encode(value[..j])| < |Encode(value[..k])|
  {
    EncodeAppends(value[..j], value[j..k]);
    assert value[..k] == value[..j] + value[j..k];
    assert value[j..k] != "";
  }

  lemma NothingFits(value: string, k: nat)
    requires k <= |value| && |Encode(value[..k])| == 0
    ensures k == 0
  {
    if k > 0 { PrefixesGrow(value, 0, k); }
  }

  // ---- building a package ----

  /** What becomes of one optional section. */
  datatype Outcome = Skipped | Whole | Cut | Dropped

  function Fate(rendered: string, s: Section, maxBytes: nat): Outcome {
    if s.content == "" then Skipped
    else if Size(rendered + Render(s.title, s.content)) <= maxBytes then Whole
    else if maxBytes - Size(rendered) - Size(Header(s.title)) > 24 then Cut
    else Dropped
  }

  function Add(rendered: string, s: Section, maxBytes: nat): string
    requires Size(MARKER) == 12
  {
    match Fate(rendered, s, maxBytes)
    case Whole => rendered + Render(s.title, s.content)
    case Cut =>
      rendered + Header(s.title) + Truncated(s.content, maxBytes - Size(rendered) - Size(Header(s.title)))
    case _ => rendered
  }

  function AddAll(rendered: string, sections: seq<Section>, maxBytes: nat): string
    requires Size(MARKER) == 12
  {
    if sections == [] then rendered
    else Add(AddAll(rendered, sections[..|sections| - 1], maxBytes), sections[|sections| - 1], maxBytes)
  }

  function CutMarks(rendered: string, sections: seq<Section>, maxBytes: nat): seq<string>
    requires Size(MARKER) == 12
  {
    if sections == [] then []
    else
      var before, last := sections[..|sections| - 1], sections[|sections| - 1];
      var fate := Fate(AddAll(rendered, before, maxBytes), last, maxBytes);
      CutMarks(rendered, before, maxBytes) + (if fate.Cut? || fate.Dropped? then [last.mark] else [])
  }

  /** Adding a section keeps what is there and stays within the limit. */
  lemma AddIsBounded(rendered: string, s: Section, maxBytes: nat)
    requires Size(MARKER) == 12 && Size(rendered) <= maxBytes
    ensures rendered <= Add(rendered, s, maxBytes) && Size(Add(rendered, s, maxBytes)) <= maxBytes
  {
    hide Render, Header, Truncated;
    if Fate(rendered, s, maxBytes).Cut? {
      var room := maxBytes - Size(rendered) - Size(Header(s.title));
      TruncatedIsLongest(s.content, room);
      SizeAdds(rendered + Header(s.title), Truncated(s.content, room));
      SizeAdds(rendered, Header(s.title));
    }
  }

  /** The whole package starts with the required sections and stays within the limit. */
  lemma {:induction false} PackageIsBounded(rendered: string, sections: seq<Section>, maxBytes: nat)
    requires Size(MARKER) == 12 && Size(rendered) <= maxBytes
    ensures rendered <= AddAll(rendered, sections, maxBytes) && Size(AddAll(rendered, sections, maxBytes)) <= maxBytes
  {
    hide Add;
    if sections != [] {
      PackageIsBounded(rendered, sections[..|sections| - 1], maxBytes);
      AddIsBounded(AddAll(rendered, sections[..|sections| - 1], maxBytes), sections[|sections| - 1], maxBytes);
    }
  }

  class ContextBuilder {
    const maxBytes: nat

    constructor (maxBytes: nat)
      requires maxBytes > 0
      ensures this.maxBytes == maxBytes
    {
      this.maxBytes := maxBytes;
    }

    /** The optional sections in their order. */
    function Optional(source: ContextInput, files: seq<string>, artifacts: seq<string>): seq<Section> {
      [Section("GIT STATUS", "git_status", source.gitStatus),
       Section("UPSTREAM HANDOFF", "upstream_handoff", source.upstreamHandoff),
       Section("FAILURE EVIDENCE", "failure_evidence", source.failureEvidence),
       Section("FILE REFERENCES", "file_references", JoinLines(files)),
       Section("ARTIFACT REFERENCES", "artifact_references", JoinLines(artifacts))]
    }

    /** `build`; None is the error that the required sections alone exceed the limit. */
    method Build(source: ContextInput) returns (package: Option<ContextPackage>)
      ensures Size(MARKER) == 12
      ensures package.None? <==> Size(RenderRequired(source)) > maxBytes
      ensures package.Some? ==>
        && Size(package.value.rendered) <= maxBytes
        && RenderRequired(source) <= package.value.rendered
        && package.value.fileRefs == Ordering.Ascending(source.fileRefs)
        && package.value.artifactRefs == Ordering.Ascending(source.artifactRefs)
      ensures package.Some? ==>
        var sections := Optional(source, package.value.fileRefs, package.value.artifactRefs);
        && package.value.rendered == AddAll(RenderRequired(source), sections, maxBytes)
        && package.value.truncatedSections == CutMarks(RenderRequired(source), sections, maxBytes)
    {
      hide RenderRequired, Render, Header, Truncated, Encode;
      MarkerSize();
      var files := Ordering.Sort(source.fileRefs);
      var artifacts := Ordering.Sort(source.artifactRefs);
      var required := RenderRequired(source);
      if Size(required) > maxBytes { return None; }
      var optional := Optional(source, files, artifacts);
      var rendered := required;
      var truncated: seq<string> := [];
      for i := 0 to |optional|
        invariant rendered == AddAll(required, optional[..i], maxBytes) && Size(rendered) <= maxBytes
        invariant truncated == CutMarks(required, optional[..i], maxBytes)
      {
        assert optional[..i + 1][..i] == optional[..i];
        var s := optional[i];
        AddIsBounded(rendered, s, maxBytes);
        if s.content == "" { continue; }
        var candidate := rendered + Render(s.title, s.content);
        if Size(candidate) <= maxBytes {
          rendered := candidate;
          continue;
        }
        var remaining := maxBytes - Size(rendered);
        var prefix := Header(s.title);
        var room := remaining - Size(prefix);
        if room > 24 {
          var text := TruncateUtf8(s.content, room);
          rendered := rendered + prefix + text;
        }
        truncated := truncated + [s.mark];
      }
      assert optional[..|optional|] == optional;
      PackageIsBounded(required, optional, maxBytes);
      package := Some(ContextPackage(rendered, files, artifacts, truncated));
    }
  }
}
