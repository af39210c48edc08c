/**
 * Messages flowing between the pipeline stages.
 *
 * A message is an open field bag in the server; this core reads only the
 * fields below, any of which may be absent.  `Option` stands for Ruby's nil.
 */
module Messages {

  datatype Option<+T> = None | Some(value: T)

  /** The outcome of an operation that the server either completes or aborts by raising. */
  datatype Result<+T, +E> = Success(value: T) | Failure(error: E)

  /** Kinds of `:pipe_message` control notices; only `:new_conn` is acted upon. */
  datatype PipeKind = NewConn | OtherKind(name: string)

  datatype Msg = Msg(
    connId: Option<string>,       // :conn_id, already rendered with to_s
    data: Option<string>,         // :data, raw bytes
    pipePath: Option<string>,     // :pipe_path
    sourceKey: Option<string>,    // :source_key
    pipeMessage: Option<PipeKind>, // :pipe_message
    targetKey: Option<string>     // :target_key
  )

  /** `{conn_id: c, data: d}`: bytes received from one connection. */
  function DataFrame(conn: string, bytes: string): Msg {
    Msg(Some(conn), Some(bytes), None, None, None, None)
  }

  /** `{pipe_path: p}`: a conduit announces that it exists and has data. */
  function Announcement(path: string): Msg {
    Msg(None, None, Some(path), None, None, None)
  }

  /** `{data: d}`: bytes read from the compositing subprocess. */
  function TranscodedFrame(bytes: string): Msg {
    Msg(None, Some(bytes), None, None, None, None)
  }

  /** `{source_key: s, pipe_message: k, target_key: t}`: a control notice. */
  function Notice(source: string, kind: PipeKind, target: Option<string>): Msg {
    Msg(None, None, None, Some(source), Some(kind), target)
  }

  /** Concatenation regroups freely; queues are appended to in pieces. */
  lemma ConcatAssoc<T>(a: seq<T>, b: seq<T>, c: seq<T>)
    ensures (a + b) + c == a + (b + c)
  {
  }
}
