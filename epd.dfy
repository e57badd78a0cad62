/**
 * The e-paper panel as the board sees it: a width and a height, and the
 * ordered log of the commands it has received (fill, image, display).
 */
module Epd {
  import opened Layout

  datatype Color = White | Black

  /** A staged picture: its size, its background and what is drawn on it. */
  datatype Frame = Frame(width: int, height: int, background: Color, ops: seq<DrawOp>)

  /** One call on the panel driver. */
  datatype Command =
    | FillCmd(color: Color)
    | ImageCmd(frame: Frame)
    | DisplayCmd

  class Panel {
    const width: int
    const height: int
    /** Every command the panel has received, oldest first. */
    var log: seq<Command>

    constructor (width: int, height: int)
      ensures this.width == width && this.height == height
      ensures log == []
    {
      this.width := width;
      this.height := height;
      log := [];
    }

    /** `fill(color)`: paint the whole buffer in one color. */
    method Fill(color: Color)
      modifies this
      ensures log == old(log) + [FillCmd(color)]
    {
      log := log + [FillCmd(color)];
    }

    /** `image(frame)`: stage a rendered frame. */
    method Image(frame: Frame)
      modifies this
      ensures log == old(log) + [ImageCmd(frame)]
    {
      log := log + [ImageCmd(frame)];
    }

    /** `display()`: push the buffer to the glass. */
    method Display()
      modifies this
      ensures log == old(log) + [DisplayCmd]
    {
      log := log + [DisplayCmd];
    }
  }
}
