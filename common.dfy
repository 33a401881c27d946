/** Values shared by every part of the model: optional values, results of calls
    that may raise, the nullable text columns of the `papers` table, and
    embedding vectors. */
module Common {

  /** A Python value that may be `None`, or a dictionary key that may be missing. */
  datatype Option<T> = None | Some(value: T) {
    /** `d.get(key, default)` */
    function GetOr(default: T): T {
      match this
      case Some(v) => v
      case None => default
    }
  }

  /** The message carried by a raised exception (`str(e)`). */
  datatype Error = Error(message: string)

  /** The outcome of a call that either returns a value or raises. */
  datatype Result<T> = Ok(value: T) | Err(error: Error)

  /** A nullable text column as a database driver hands it to Python:
      `None` for SQL NULL, a `str` otherwise. */
  datatype Value = NoneValue | StrValue(s: string)

  /** A row as `cursor.fetchall()` returns it: a tuple of column values. */
  type Row = seq<Value>

  /** `xs[::-1]` */
  function Reverse<T>(xs: seq<T>): (r: seq<T>)
    ensures |r| == |xs| && forall i :: 0 <= i < |xs| ==> r[i] == xs[|xs| - 1 - i]
  {
    if |xs| == 0 then [] else Reverse(xs[1..]) + [xs[0]]
  }

  /** An embedding. Its components are never computed with here; they are only
      passed along, stored, or rendered by a caller-supplied function. */
  type Vector = seq<real>

  /** One message of a chat completion request. */
  datatype Message = Message(role: string, content: string)

  /** A chat model: answers a conversation with a completion text, or raises. */
  type ChatModel = seq<Message> -> Result<string>
}
