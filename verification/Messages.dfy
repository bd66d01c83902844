/** Values shared by the request, agent and streaming modules. */
module Messages {
  datatype ToolCall = ToolCall(index: int, id: string, typ: string, name: string, arguments: string)
}
