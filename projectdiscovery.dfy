/**
 * The ProjectDiscovery plugin: looks CVEs up in the ProjectDiscovery vulnerability API with an
 * API key. The HTTP client is a parameter `http` that gives, for each requested URL, what the
 * request came to (a timeout, another request failure, or a status code with a body).
 */
module ProjectDiscovery {
  import opened Common
  import opened Json
  import opened Base
  import opened TemplateFormat

  const PluginName: string := "ProjectDiscovery API"
  const ApiBaseUrl: string := "https://api.projectdiscovery.io/v2/vulnerability"
  const DefaultPriority: int := 50
  /** The well-known CVE used to check the key. */
  const ProbeUrl: string := ApiBaseUrl + "/CVE-2021-44228"

  /** A response body: JSON that parsed, or text that `response.json()` rejects. */
  datatype Body = Parsed(json: Json) | Malformed

  /** What one GET request came to. */
  datatype HttpOutcome = Timeout | RequestFailed | Response(status: int, body: Body)

  /**
   * `_verify_api_key`: no key is never valid; otherwise the key is taken as valid for every
   * answer of the probe request except 401 and 403 (a 404 for the probe CVE is accepted), and
   * a request that timed out or failed means not verified.
   */
  function VerifyApiKey(apiKey: string, http: string -> HttpOutcome): (ok: bool)
    ensures ok <==> apiKey != [] && http(ProbeUrl).Response?
                    && http(ProbeUrl).status != 401 && http(ProbeUrl).status != 403
  {
    if apiKey == [] then false
    else
      match http(ProbeUrl)
      case Response(status, _) =>
        if status == 200 then true
        else if status == 401 then false
        else if status == 403 then false
        else status != 401
      case _ => false
  }

  /** The id as the API expects it: upper-cased, and with a "CVE-" prefix when it lacked one. */
  function NormalizeId(cveId: string): (r: string)
    ensures "CVE-" <= r && Upper(r) == r
    ensures "CVE-" <= Upper(cveId) ==> r == Upper(cveId)
    ensures !("CVE-" <= Upper(cveId)) ==> r == "CVE-" + Upper(cveId)
  {
    var up := Upper(cveId);
    CaseAbsorbs(cveId);
    if "CVE-" <= up then up
    else
      assert Upper("CVE-" + up) == "CVE-" + up by {
        assert forall k :: 0 <= k < |up| ==> Upper("CVE-" + up)[4 + k] == UpperChar(up[k]);
      }
      "CVE-" + up
  }

  /** Normalizing a normalized id changes nothing. */
  lemma NormalizeIdIdempotent(cveId: string)
    ensures NormalizeId(NormalizeId(cveId)) == NormalizeId(cveId)
  {
  }

  /** The case the caller wrote the id in does not matter. */
  lemma NormalizeIdIgnoresCase(cveId: string)
    ensures NormalizeId(Lower(cveId)) == NormalizeId(cveId)
    ensures NormalizeId(Upper(cveId)) == NormalizeId(cveId)
  {
    CaseAbsorbs(cveId);
  }

  /** The URL of one CVE's record. */
  function ApiUrl(cveId: string): string
  {
    ApiBaseUrl + "/" + cveId
  }

  /** The metadata of a hit: the raw answer and the URL that gave it. */
  function AnswerMetadata(data: Json, url: string): seq<(string, Json)>
  {
    [("api_response", data), ("api_url", JStr(url))]
  }

  /**
   * `fetch_cve` of an available plugin as a value. Only a 200 answer whose body parses and can be
   * formatted is a hit; every other status, a timeout, a failed request, a body that is not
   * JSON and an answer the formatter cannot read all give None.
   */
  function ApiAnswer(cveId: string, http: string -> HttpOutcome, dumps: Json -> string): (r: Option<CveResult>)
    ensures var id := NormalizeId(cveId);
            var outcome := http(ApiUrl(id));
            r.Some? <==> outcome.Response? && outcome.status == 200 && outcome.body.Parsed?
                         && Format(id, outcome.body.json, dumps).Some?
    ensures var id := NormalizeId(cveId);
            var outcome := http(ApiUrl(id));
            r.Some? ==> r.value == CveResult(id, PluginName, Format(id, outcome.body.json, dumps).value,
                                             Some(AnswerMetadata(outcome.body.json, ApiUrl(id))))
  {
    var id := NormalizeId(cveId);
    var url := ApiUrl(id);
    var outcome := http(url);
    if !(outcome.Response? && outcome.status == 200 && outcome.body.Parsed?) then None
    else
      var data := outcome.body.json;
      match Format(id, data, dumps)
      case None => None
      case Some(content) => Some(CveResult(id, PluginName, content, Some(AnswerMetadata(data, url))))
  }

  /**
   * A hit is a dict answer, its template opens with the normalized id, and its metadata names
   * the URL that was asked.
   */
  lemma HitOpensWithId(cveId: string, http: string -> HttpOutcome, dumps: Json -> string)
    requires ApiAnswer(cveId, http, dumps).Some?
    ensures var r := ApiAnswer(cveId, http, dumps).value;
            var data := http(ApiUrl(r.cveId)).body.json;
            && "CVE-" <= r.cveId
            && data.JObj?
            && "id: " + r.cveId <= r.content
            && Lookup(r.metadata.value, "api_url") == Some(JStr(ApiUrl(r.cveId)))
            && Lookup(r.metadata.value, "api_response") == Some(data)
  {
    var r := ApiAnswer(cveId, http, dumps).value;
    var data := http(ApiUrl(r.cveId)).body.json;
    FormatOpening(r.cveId, data, dumps);
    var info := InfoOf(data.fields).value;
    var name := Field(info, data.fields, "name");
    var shown := if Truthy(name) then Str(name) else r.cveId;
    assert "id: " + r.cveId <= "id: " + r.cveId + "\n\ninfo:\n  name: " + shown;
    LookupCons("api_response", data, [("api_url", JStr(ApiUrl(r.cveId)))], "api_url");
    LookupCons("api_response", data, [("api_url", JStr(ApiUrl(r.cveId)))], "api_response");
  }

  /** `ProjectDiscoveryPlugin`. */
  class ProjectDiscoveryPlugin {
    const name: string := PluginName
    const priority: int
    var enabled: bool
    const apiKey: string
    /** Whether the last check of the key succeeded. */
    var apiVerified: bool

    constructor (apiKey: string, priority: int := DefaultPriority, enabled: bool := true)
      ensures this.name == PluginName && this.priority == priority && this.enabled == enabled
      ensures this.apiKey == apiKey && !this.apiVerified
    {
      this.priority := priority;
      this.enabled := enabled;
      this.apiKey := apiKey;
      this.apiVerified := false;
    }

    /**
     * `initialize`: without a key the plugin turns itself off; otherwise it checks the key and
     * stays enabled even when the check fails.
     */
    method Initialize(http: string -> HttpOutcome) returns (ok: bool)
      modifies this`enabled, this`apiVerified
      ensures apiKey == [] ==> !ok && !enabled && apiVerified == old(apiVerified)
      ensures apiKey != [] ==> ok == apiVerified == VerifyApiKey(apiKey, http) && enabled == old(enabled)
    {
      if apiKey == [] {
        enabled := false;
        return false;
      }
      apiVerified := VerifyApiKey(apiKey, http);
      return apiVerified;
    }

    /** `update`: checks the key again. */
    method Update(http: string -> HttpOutcome) returns (ok: bool)
      modifies this`apiVerified
      ensures ok == apiVerified == VerifyApiKey(apiKey, http)
    {
      apiVerified := VerifyApiKey(apiKey, http);
      return apiVerified;
    }

    /** `is_available`: enabled and holding a key (whether or not the key was verified). */
    predicate IsAvailable()
      reads this
    {
      enabled && apiKey != []
    }

    /**
     * `fetch_cve`: an unavailable plugin asks nothing; otherwise it asks for the normalized id
     * once and answers as `ApiAnswer`. `requested` lists the URLs requested.
     */
    method FetchCve(cveId: string, http: string -> HttpOutcome, dumps: Json -> string)
      returns (r: Option<CveResult>, requested: seq<string>)
      ensures r == if IsAvailable() then ApiAnswer(cveId, http, dumps) else None
      ensures requested == if IsAvailable() then [ApiUrl(NormalizeId(cveId))] else []
    {
      if !IsAvailable() {
        return None, [];
      }
      var id := Upper(cveId);
      if !("CVE-" <= id) {
        id := "CVE-" + id;
      }
      var url := ApiBaseUrl + "/" + id;
      requested := [url];
      var outcome := http(url);
      if !outcome.Response? {
        return None, requested;
      }
      if outcome.status == 200 {
        if outcome.body.Malformed? {
          return None, requested;
        }
        var data := outcome.body.json;
        var content := FormatVulnerabilityData(id, data, dumps);
        if content.None? {
          return None, requested;
        }
        return Some(CveResult(id, name, content.value, Some([("api_response", data), ("api_url", JStr(url))]))), requested;
      } else if outcome.status == 404 {
        return None, requested;
      } else if outcome.status == 401 {
        return None, requested;
      } else if outcome.status == 429 {
        return None, requested;
      } else {
        return None, requested;
      }
    }
  }
}
