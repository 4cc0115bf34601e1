/** Helpers of the firewall-management tool server: filter expressions as
    query parameters, tool names from human-readable names, and generated
    tool descriptions. */
module SccUtils {

  import opened Wrappers
  import opened Text

  /** A filter expression as query parameters: the single key "filter". */
  function ProcessFilterExpression(expr: string): (params: map<string, string>)
    ensures params.Keys == {"filter"}
    ensures params["filter"] == expr
  {
    map["filter" := expr]
  }

  /** One character of a tool name: a space becomes an underscore, and an
      ASCII capital its lower-case letter. */
  function SanitizeChar(c: char): char {
    if c == ' ' then '_' else ToLower(c)
  }

  /** A human-readable name as a tool name: every space replaced by an
      underscore, then lower-cased. */
  function SanitizeToolName(name: string): (tool: string)
    ensures |tool| == |name|
    decreases |name|
  {
    if |name| == 0 then "" else [SanitizeChar(name[0])] + SanitizeToolName(name[1..])
  }

  /** Sanitizing maps each character on its own: a space becomes "_", an
      ASCII capital its lower-case letter, and anything else stays, so the
      tool name has no space and no capital. Nothing is removed or reordered. */
  lemma {:induction false} SanitizeEachCharacter(name: string)
    ensures ' ' !in SanitizeToolName(name)
    ensures forall i :: 0 <= i < |name| ==> !('A' <= SanitizeToolName(name)[i] <= 'Z')
    ensures forall i :: 0 <= i < |name| && name[i] == ' ' ==> SanitizeToolName(name)[i] == '_'
    ensures forall i :: 0 <= i < |name| && 'A' <= name[i] <= 'Z' ==>
              SanitizeToolName(name)[i] as int == name[i] as int + 32
    ensures forall i :: 0 <= i < |name| && name[i] != ' ' && !('A' <= name[i] <= 'Z') ==>
              SanitizeToolName(name)[i] == name[i]
    decreases |name|
  {
    if |name| > 0 {
      SanitizeEachCharacter(name[1..]);
      var t := SanitizeToolName(name);
      assert t == [SanitizeChar(name[0])] + SanitizeToolName(name[1..]);
      forall i | 0 <= i < |name|
        ensures t[i] == SanitizeChar(name[i])
      {
        if i > 0 {
          assert t[i] == SanitizeToolName(name[1..])[i - 1];
        }
      }
    }
  }

  /** Sanitizing a tool name again changes nothing. */
  lemma SanitizeIsIdempotent(name: string)
    ensures SanitizeToolName(SanitizeToolName(name)) == SanitizeToolName(name)
  {
    var t := SanitizeToolName(name);
    SanitizeEachCharacter(name);
    SanitizeEachCharacter(t);
    assert forall i :: 0 <= i < |t| ==> SanitizeToolName(t)[i] == t[i];
  }

  /** A name is empty exactly when its tool name is: the factory's
      missing-name test reads the same before and after sanitizing. */
  lemma SanitizeKeepsEmptiness(name: string)
    ensures SanitizeToolName(name) == "" <==> name == ""
  {
  }

  /** What appending to the description raises when neither method branch
      assigned it. */
  const UnboundDescription: string :=
    "UnboundLocalError: cannot access local variable 'description' where it is not associated with a value"

  /** The filtering sentence of a description. */
  function FilteringClause(fields: Option<seq<string>>): string {
    if fields.Some? && |fields.value| > 0 then " Supports filtering on fields: " + Join(fields.value, ", ") + "."
    else " Does not support filtering."
  }

  /** The opening of a description, which names the tool. */
  function Opening(name: string, httpMethod: string): string {
    if httpMethod == "GET" then "Fetch data for " + name + " from Cisco SCC Firewall"
    else "Send config changes to " + name + " on Cisco SCC Firewall"
  }

  /** The endpoint sentence of a description. */
  function EndpointClause(path: string): string {
    "(Endpoint: " + path + ")."
  }

  /** A tool description: a sentence for GET or for POST naming the tool
      and its endpoint path, then the filtering sentence. Any other method
      leaves the description unassigned and raises. */
  function GenerateToolDocstring(name: string, path: string, httpMethod: string, fields: Option<seq<string>>)
    : (doc: Result<string, string>)
    ensures doc.Err? <==> httpMethod != "GET" && httpMethod != "POST"
    ensures doc.Err? ==> doc.error == UnboundDescription
  {
    if httpMethod == "GET" || httpMethod == "POST" then
      Ok(Opening(name, httpMethod) + " " + EndpointClause(path) + FilteringClause(fields))
    else
      Err(UnboundDescription)
  }

  /** A GET description opens by offering to fetch the named tool's data, a
      POST description by offering to send it configuration changes. */
  lemma DocstringOpening(name: string, path: string, httpMethod: string, fields: Option<seq<string>>)
    requires httpMethod == "GET" || httpMethod == "POST"
    ensures httpMethod == "GET" ==>
              StartsWith(GenerateToolDocstring(name, path, httpMethod, fields).value,
                         "Fetch data for " + name + " from Cisco SCC Firewall")
    ensures httpMethod == "POST" ==>
              StartsWith(GenerateToolDocstring(name, path, httpMethod, fields).value,
                         "Send config changes to " + name + " on Cisco SCC Firewall")
  {
    var opening := Opening(name, httpMethod);
    var rest := " " + EndpointClause(path) + FilteringClause(fields);
    assert GenerateToolDocstring(name, path, httpMethod, fields).value == opening + rest;
    StartsWithAppend(opening, rest);
    if httpMethod == "GET" {
      assert opening == "Fetch data for " + name + " from Cisco SCC Firewall";
    } else {
      assert opening == "Send config changes to " + name + " on Cisco SCC Firewall";
    }
  }

  /** Every description names the endpoint path. */
  lemma DocstringNamesEndpoint(name: string, path: string, httpMethod: string, fields: Option<seq<string>>)
    requires httpMethod == "GET" || httpMethod == "POST"
    ensures Contains(GenerateToolDocstring(name, path, httpMethod, fields).value, "(Endpoint: " + path + ").")
  {
    ContainsMiddle(Opening(name, httpMethod) + " ", EndpointClause(path), FilteringClause(fields));
  }

  /** A description without filterable fields ends by saying so. */
  lemma DocstringWithoutFields(name: string, path: string, httpMethod: string, fields: Option<seq<string>>)
    requires httpMethod == "GET" || httpMethod == "POST"
    requires fields.None? || |fields.value| == 0
    ensures EndsWith(GenerateToolDocstring(name, path, httpMethod, fields).value, " Does not support filtering.")
  {
    var head := Opening(name, httpMethod) + " " + EndpointClause(path);
    var doc := GenerateToolDocstring(name, path, httpMethod, fields).value;
    assert doc == head + " Does not support filtering.";
    assert doc[|head|..] == " Does not support filtering.";
  }

  /** When there are filterable fields, the description names every one of
      them. */
  lemma DocstringListsFields(name: string, path: string, httpMethod: string, fields: seq<string>, k: nat)
    requires httpMethod == "GET" || httpMethod == "POST"
    requires k < |fields|
    ensures Contains(GenerateToolDocstring(name, path, httpMethod, Some(fields)).value, fields[k])
  {
    var doc := GenerateToolDocstring(name, path, httpMethod, Some(fields)).value;
    JoinContainsParts(fields, ", ", k);
    var joined := Join(fields, ", ");
    var before := Opening(name, httpMethod) + " " + EndpointClause(path) + " Supports filtering on fields: ";
    assert doc == before + joined + ".";
    ContainsExtendRight(joined, ".", fields[k]);
    ContainsSuffix(before, joined + ".", fields[k]);
    assert before + joined + "." == before + (joined + ".");
  }

  /** When there are filterable fields, the description ends by listing
      them, comma-separated and in order. */
  lemma DocstringEndsWithFieldList(name: string, path: string, httpMethod: string, fields: seq<string>)
    requires httpMethod == "GET" || httpMethod == "POST"
    requires |fields| > 0
    ensures EndsWith(GenerateToolDocstring(name, path, httpMethod, Some(fields)).value,
                     " Supports filtering on fields: " + Join(fields, ", ") + ".")
  {
    var doc := GenerateToolDocstring(name, path, httpMethod, Some(fields)).value;
    var head := Opening(name, httpMethod) + " " + EndpointClause(path);
    var tail := " Supports filtering on fields: " + Join(fields, ", ") + ".";
    assert doc == head + tail;
    assert doc[|head|..] == tail;
  }
}
