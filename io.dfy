/**
 * The writable things of the program: a text sink (a tview TextView or
 * standard output, written with fmt.Fprintf), the buffered string channel
 * that carries webhook messages, and how a call ends for the process.
 */
module Io {
  import Strings

  /**
   * A text view (or any io.Writer). Each Fprintf call is one chunk; the
   * displayed text is their concatenation. `row` is the scroll offset.
   */
  class Buffer {
    var chunks: seq<string>
    var row: int

    constructor ()
      ensures chunks == [] && row == 0
    {
      chunks, row := [], 0;
    }

    /** The whole text written since the last Clear. */
    function Text(): string
      reads this
    {
      Strings.Concat(chunks)
    }

    /** TextView.Clear: the text is dropped; the scroll offset is kept. */
    method Clear()
      modifies this
      ensures chunks == [] && row == old(row)
    {
      chunks := [];
    }

    /** One fmt.Fprintf into the view. */
    method Write(s: string)
      modifies this
      ensures chunks == old(chunks) + [s] && row == old(row)
    {
      chunks := chunks + [s];
    }

    /** TextView.ScrollTo(r, 0). */
    method ScrollTo(r: int)
      modifies this
      ensures row == r && chunks == old(chunks)
    {
      row := r;
    }
  }

  /** A `chan string`: the messages sent so far and not yet received, oldest first. */
  class Channel {
    var items: seq<string>

    constructor ()
      ensures items == []
    {
      items := [];
    }

    /** ch <- s */
    method Send(s: string)
      modifies this
      ensures items == old(items) + [s]
    {
      items := items + [s];
    }
  }

  /** How a Go call ends: it returns, or log.Fatal exits, or log.Panicf panics. */
  datatype Exit<+T> = Returned(value: T) | Fatal(message: string) | Panicked(message: string)
}
