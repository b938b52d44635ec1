/** Access to the database connection that reopens it when it is closed. */
module ConnectionFactories {
  import opened Common

  /** The driver's connection, reduced to what the factory observes: whether
      it is open, and how often it was reconnected. */
  class Connection {
    var open: bool
    var reconnects: nat

    constructor (open: bool)
      ensures this.open == open && reconnects == 0
    {
      this.open := open;
      reconnects := 0;
    }

    /** reconnect(): reopens the connection (its failures are not modelled). */
    method Reconnect()
      modifies this
      ensures open && reconnects == old(reconnects) + 1
    {
      open := true;
      reconnects := reconnects + 1;
    }
  }

  class ReconnectingConnectionFactory {
    /** The held connection; it is never replaced. */
    const connection: Connection

    constructor (connection: Connection)
      ensures this.connection == connection
    {
      this.connection := connection;
    }

    /** get(): reconnect only when the connection is closed, re-checking
        inside the exclusive section, and return the held connection. */
    method Get() returns (c: Connection)
      modifies connection
      ensures c == connection && c.open
      ensures c.reconnects == old(c.reconnects) + (if old(c.open) then 0 else 1)
    {
      if !connection.open {
        if !connection.open {
          connection.Reconnect();
        }
      }
      return connection;
    }
  }

  /** The constructor's null check: a null connection throws a
      NullPointerException naming it; otherwise the factory holds it. */
  method NewReconnectingConnectionFactory(connection: Connection?)
    returns (r: Result<ReconnectingConnectionFactory>)
    ensures connection == null ==> r == Err(NullPointer("connection"))
    ensures connection != null ==> r.Ok? && fresh(r.value) && r.value.connection == connection
  {
    if connection == null {
      return Err(NullPointer("connection"));
    }
    var factory := new ReconnectingConnectionFactory(connection);
    return Ok(factory);
  }
}
