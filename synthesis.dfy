/**
 * The body of the synthesis worker thread (`make_wavdata`): parse the raw
 * datagram as JSON, take its "message" field, feed it on standard input to
 * the text-to-speech command and hand back whatever that command printed.
 *
 * `JSON.parse` and the subprocess are outside the model: the parse is given
 * as a `Parse` value and the text-to-speech command as a function from the
 * text on its standard input to its run, None when starting or talking to
 * the process raised an exception.
 */
module Synthesis {
  import opened Wrappers

  newtype byte = x: int | 0 <= x < 256

  /**
   * Outcome of `JSON.parse(jsondata)` followed by `msgdata["message"]`.
   * `Parsed(Some(t))` carries the text `capture3` writes to standard input:
   * a JSON string as is, any other value (number, `true`, array, object)
   * through `to_s`. `Parsed(None)` means the value was nil or false: the key
   * is missing, it holds JSON `null` or `false`, or the top-level JSON value
   * is a string that does not contain "message" (one that does gives the
   * text "message"). A top-level number or array raises: `Malformed`.
   */
  datatype Parse =
    | Malformed                        // either step raised an exception
    | Parsed(message: Option<string>)

  /** What `Open3.capture3` returns: standard output, standard error, exit status. */
  datatype Capture = Capture(stdout: seq<byte>, stderr: seq<byte>, exitStatus: int)

  /**
   * The text written to the synthesis command's standard input.
   * `Open3.capture3` replaces a nil `stdin_data` with the empty string.
   */
  function StdinData(p: Parse): string
    requires p.Parsed?
  {
    p.message.GetOr("")
  }

  /**
   * `make_wavdata`: the wav bytes, or None (Ruby nil) when an exception was
   * rescued. The command is run only on a parsed datagram; its exit status
   * is never looked at and empty output is a value.
   */
  function MakeWavData(p: Parse, vvtts: string -> Option<Capture>): (r: Option<seq<byte>>)
    ensures r.Some? <==> p.Parsed? && vvtts(StdinData(p)).Some?
    ensures r.Some? ==> r.value == vvtts(StdinData(p)).value.stdout
  {
    match p
    case Malformed => None
    case Parsed(_) =>
      match vvtts(StdinData(p))
      case None => None
      case Some(c) => Some(c.stdout)
  }

  /**
   * A datagram without a "message" key is spoken exactly as one whose
   * message is the empty string.
   */
  lemma MissingMessageIsEmptyMessage(vvtts: string -> Option<Capture>)
    ensures MakeWavData(Parsed(None), vvtts) == MakeWavData(Parsed(Some("")), vvtts)
  {
  }

  /**
   * Only the message reaches the command: two commands that give the same
   * run on that text give the same result, whatever they do on other text.
   */
  lemma OnlyMessageSpoken(m: string, vvtts: string -> Option<Capture>, other: string -> Option<Capture>)
    requires vvtts(m) == other(m)
    ensures MakeWavData(Parsed(Some(m)), vvtts) == MakeWavData(Parsed(Some(m)), other)
  {
  }

  /** A synthesis run that fails with a non-zero status still yields its output, even an empty one. */
  lemma ExitStatusIgnored(p: Parse, out: seq<byte>, err: seq<byte>, status: int)
    ensures MakeWavData(p, _ => Some(Capture(out, err, status))) == MakeWavData(p, _ => Some(Capture(out, [], 0)))
    ensures p.Parsed? ==> MakeWavData(p, _ => Some(Capture([], err, status))) == Some([])
  {
  }
}
