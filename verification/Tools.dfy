/** Registered tools (backend/tool_types.py, backend/tool_registry.py). */
module Tools {
  import opened Validation

  datatype Risk = ReadOnly | InternalWrite | HighRisk

  datatype Tool = Tool(version: string, risk: Risk, schema: Schema, capabilities: set<string>, dependsOn: set<string>)

  type Registry = map<string, Tool>
}
