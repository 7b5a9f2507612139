/** The errors a request handler can throw back to the protocol layer. */
module Faults {

  /** An error reported by the database driver (connection or statement failure). */
  datatype DbError = DbError(message: string)

  datatype Fault =
    | InvalidUrl                    // the URL constructor rejected its input
    | InvalidResourceUri            // the path has no "schema" marker in second-to-last place
    | UnknownTool(name: string)     // call_tool with a name other than "query"
    | Database(error: DbError)      // rethrown from the driver unchanged
  {
    /** The message carried by the thrown `Error`. */
    function Message(): string
    {
      match this
      case InvalidUrl => "Invalid URL"
      case InvalidResourceUri => "Invalid resource URI"
      case UnknownTool(name) => "Unknown tool: " + name
      case Database(e) => e.message
    }
  }
}
