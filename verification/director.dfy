/** The routing table the stream director consults: method full name -> backend connection. */
module Director {
  import opened Wrappers
  import opened Types

  const Unregistered := "unregistered client"

  /** The lookup StreamDirector performs on a stored table. */
  function Route(table: map<string, Conn>, fullMethodName: string): (r: Result<Conn, string>)
    ensures r.Ok? <==> fullMethodName in table
    ensures r.Ok? ==> r.value == table[fullMethodName]
    ensures r.Err? ==> r.error == Unregistered
  {
    if fullMethodName in table then Ok(table[fullMethodName]) else Err(Unregistered)
  }

  class GrpcManager {
    /** The atomic value: None until the first store. */
    var method2Cli: Option<map<string, Conn>>

    constructor ()
      ensures method2Cli == None
    {
      method2Cli := None;
    }

    /** SetMethod2CliAtomic: the new table replaces the old one as a whole. */
    method SetMethod2CliAtomic(table: map<string, Conn>)
      modifies this
      ensures method2Cli == Some(table)
    {
      method2Cli := Some(table);
    }

    /**
     * StreamDirector: hands back the caller's context unchanged and the
     * connection stored under the exact method name.  Loading the table
     * before anything was stored fails Go's type assertion, so a store must
     * come first.
     */
    method StreamDirector<Ctx>(ctx: Ctx, fullMethodName: string) returns (outCtx: Ctx, conn: Option<Conn>, err: Option<string>)
      requires method2Cli.Some?
      ensures outCtx == ctx
      ensures conn.Some? <==> fullMethodName in method2Cli.value
      ensures conn.Some? ==> conn.value == method2Cli.value[fullMethodName] && err == None
      ensures conn.None? ==> err == Some(Unregistered)
    {
      var table := method2Cli.value;
      if fullMethodName !in table {
        return ctx, None, Some(Unregistered);
      }
      return ctx, Some(table[fullMethodName]), None;
    }
  }
}
