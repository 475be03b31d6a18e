/**
 * The data carried between CVE source plugins and their callers: the lookup result record,
 * and the fields every plugin shares (name, priority, enabled flag).
 */
module Base {
  import opened Common
  import opened Json

  /** Python's `Optional[dict]` metadata: None, or a dict (possibly empty). */
  type Metadata = Option<seq<(string, Json)>>

  /** One successful lookup: which CVE, which source produced it, the template text, and metadata. */
  datatype CveResult = CveResult(cveId: string, source: string, content: string, metadata: Metadata)

  /** `if self.metadata:` — metadata is present and not an empty dict. */
  predicate MetadataTruthy(m: Metadata)
  {
    m.Some? && m.value != []
  }

  /** The dict view of a result: the three fixed keys, then `metadata` only when it is truthy. */
  function ToDict(r: CveResult): (d: seq<(string, Json)>)
    ensures |d| == if MetadataTruthy(r.metadata) then 4 else 3
    ensures Keys(d)[0] == "cve_id" && Keys(d)[1] == "source" && Keys(d)[2] == "content"
    ensures Lookup(d, "cve_id") == Some(JStr(r.cveId))
    ensures Lookup(d, "source") == Some(JStr(r.source))
    ensures Lookup(d, "content") == Some(JStr(r.content))
    ensures "metadata" in Keys(d) <==> MetadataTruthy(r.metadata)
    ensures MetadataTruthy(r.metadata) ==> Lookup(d, "metadata") == Some(JObj(r.metadata.value))
  {
    var value := JObj(if r.metadata.Some? then r.metadata.value else []);
    var shown := MetadataTruthy(r.metadata);
    var cve, src, text := JStr(r.cveId), JStr(r.source), JStr(r.content);
    FourKeys(true, "cve_id", cve, true, "source", src, true, "content", text, shown, "metadata", value);
    FourLookup(true, "cve_id", cve, true, "source", src, true, "content", text, shown, "metadata", value, "cve_id");
    FourLookup(true, "cve_id", cve, true, "source", src, true, "content", text, shown, "metadata", value, "source");
    FourLookup(true, "cve_id", cve, true, "source", src, true, "content", text, shown, "metadata", value, "content");
    FourLookup(true, "cve_id", cve, true, "source", src, true, "content", text, shown, "metadata", value, "metadata");
    Entry(true, "cve_id", cve) + Entry(true, "source", src) + Entry(true, "content", text) + Entry(shown, "metadata", value)
  }

  /**
   * The fields every plugin has. `id` stands for the identity of the plugin object: two plugins
   * may share a name, a priority and a flag and still be different objects.
   */
  datatype Plugin = Plugin(id: nat, name: string, priority: int, enabled: bool)

  /** The base constructor, with its default priority and enabled flag. */
  function NewPlugin(id: nat, name: string, priority: int := 100, enabled: bool := true): Plugin
  {
    Plugin(id, name, priority, enabled)
  }

  /** The base readiness check, which variants without their own check inherit. */
  predicate DefaultIsAvailable(p: Plugin)
  {
    p.enabled
  }

  /** A plugin built with only a name is enabled, has priority 100 and is available by default. */
  lemma ConstructorDefaults(id: nat, name: string)
    ensures NewPlugin(id, name).priority == 100
    ensures NewPlugin(id, name).enabled && DefaultIsAvailable(NewPlugin(id, name))
    ensures NewPlugin(id, name).name == name
  {
  }

  /** The default readiness check is exactly the enabled flag. */
  lemma DefaultIsAvailableIsEnabled(p: Plugin)
    ensures DefaultIsAvailable(p) <==> p.enabled
  {
  }
}
