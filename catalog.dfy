/** The fixed tool and prompt catalogs; nothing is registered at run time. */
module Catalog {

  /** The one tool the server offers and dispatches. */
  const QueryToolName: string := "query"

  /** One property of a tool's input schema: its name and JSON type. */
  datatype Property = Property(name: string, jsonType: string)

  /** A tool descriptor; the input schema is an object with the given properties. */
  datatype Tool = Tool(name: string, description: string, inputType: string, properties: seq<Property>)

  datatype Prompt = Prompt(name: string, description: string)

  datatype PromptMessage = PromptMessage(role: string, contentType: string, text: string)

  const SchemaPromptText: string :=
    "Add always in the sql query the schema of the table in order to provide a context for the query"

  /** The answer to `tools/list`. */
  function ListTools(): seq<Tool>
  {
    [Tool(QueryToolName, "Run a read-only SQL query ", "object", [Property("sql", "string")])]
  }

  /** The answer to `prompts/list`. */
  function ListPrompts(): seq<Prompt>
  {
    [Prompt("schema-addition", "Add a schema to the query")]
  }

  /** The answer to `prompts/get`: the same single message whatever prompt is asked for. */
  function GetPrompt(name: string, arguments: map<string, string>): seq<PromptMessage>
  {
    [PromptMessage("user", "text", SchemaPromptText)]
  }

  /** The names `tools/call` dispatches on; every other name is an unknown tool. */
  predicate IsKnownTool(name: string)
  {
    name == QueryToolName
  }

  /** The catalog offers exactly one tool, taking one string argument `sql`. */
  lemma ToolCatalogShape()
    ensures |ListTools()| == 1
    ensures ListTools()[0].name == QueryToolName
    ensures ListTools()[0].properties == [Property("sql", "string")]
  {
  }

  /** A tool is listed exactly when `tools/call` accepts its name. */
  lemma ListedToolsAreKnown(name: string)
    ensures IsKnownTool(name) <==> exists t :: t in ListTools() && t.name == name
  {
    if IsKnownTool(name) {
      assert ListTools()[0] in ListTools();
    }
  }

  /** The catalog offers exactly one prompt, and `prompts/get` answers every name alike. */
  lemma PromptCatalogShape(name: string, arguments: map<string, string>)
    ensures ListPrompts() == [Prompt("schema-addition", "Add a schema to the query")]
    ensures GetPrompt(name, arguments) == GetPrompt(ListPrompts()[0].name, map[])
  {
  }
}
