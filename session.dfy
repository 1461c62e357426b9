/**
  The session facade `FakeMCPSession` (Web-Agent/web_agent.py:50-55): it
  holds one server and forwards every command to it unchanged.
 */
module Session {
  import opened JsonData
  import opened Dispatcher

  datatype FakeMcpSession = FakeMcpSession(server: McpServer)
  {
    /** `execute(command)`: the wrapped server's result and its backend calls, nothing added. */
    function Execute(command: map<string, Json>, backend: Backend): (run: Run)
      ensures run == server.Execute(command, backend)
    {
      server.Execute(command, backend)
    }
  }

  /** Through the facade, a non-search action still gets the fixed error and sends nothing. */
  lemma SessionRejectsUnsupported(session: FakeMcpSession, command: map<string, Json>, backend: Backend)
    requires "action" in command && command["action"] != JStr("search")
    ensures session.Execute(command, backend) == Run(Returned(ErrorReply(UNSUPPORTED_ACTION)), [])
  {
  }
}
