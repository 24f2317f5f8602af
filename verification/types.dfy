/** Entities shared by both generations of the mock proxy. */
module Types {

  /** A mock case as the control API stores it. */
  datatype Case = Case(testedAppName: string, methodName: string, name: string, rule: string, body: string)

  /** Go's zero value `types.Case{}`. */
  const ZeroCase := Case("", "", "", "", "")

  /** Handle on a message descriptor discovered by reflection. */
  datatype MessageType = MessageType(fullName: string)

  /** parser.MethodDesc; `fullName` is "/service/method". */
  datatype MethodDesc = MethodDesc(name: string, fullName: string, input: MessageType, output: MessageType)

  /** parser.ServiceDesc. */
  datatype ServiceDesc = ServiceDesc(name: string, fullName: string, methods: seq<MethodDesc>)

  /** A protobuf message produced by a codec; its content is the codec's business. */
  datatype Msg = Msg(typ: MessageType, payload: string)

  /** A client connection to a backend, identified by the endpoint it dials. */
  datatype Conn = Conn(target: string)

  type Bytes = seq<int>
}
