/** The part of the rule engine's message types the endpoint uses. */
module Types {

  datatype DataType = JSON | TEXT | BINARY

  type Metadata = map<string, string>

  /** `types.RuleMsg`: timestamp, message type, data type, metadata and payload. */
  datatype RuleMsg = RuleMsg(ts: int, msgType: string, dataType: DataType, metadata: Metadata, data: string)

  /** `types.NewMsg(ts, msgType, dataType, metadata, data)`, in that argument order. */
  function NewMsg(ts: int, msgType: string, dataType: DataType, metadata: Metadata, data: string): (m: RuleMsg)
    ensures m.msgType == msgType && m.dataType == dataType && m.data == data && m.metadata == metadata
  {
    RuleMsg(ts, msgType, dataType, metadata, data)
  }
}
