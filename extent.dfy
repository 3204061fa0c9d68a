/**
 * The report the harness writes, as an abstract log: a sink holding one node per
 * test, each node an ordered list of the entries logged under it. Rendering is not
 * modelled.
 */
module Extent {

  datatype ExtentColor = Green | Red | Orange | Blue

  /** A plain message, or a coloured label made by MarkupHelper.CreateLabel. */
  datatype Markup = Text(text: string) | Label(text: string, color: ExtentColor)

  /** One entry of a node: a log line at some status, or an attached screenshot. */
  datatype Entry =
    | Pass(body: Markup)
    | Fail(body: Markup)
    | Skip(body: Markup)
    | Info(body: Markup)
    | Warning(body: Markup)
    | ScreenCapture(path: string)

  /** A report node (ExtentTest): created under a title, then only appended to. */
  class ExtentTest {
    const name: string
    var entries: seq<Entry>

    constructor (name: string)
      ensures this.name == name && entries == []
    {
      this.name := name;
      entries := [];
    }

    /** Pass, Fail, Skip, Info, Warning or AddScreenCaptureFromPath on this node. */
    method Log(e: Entry)
      modifies this
      ensures entries == old(entries) + [e]
    {
      entries := entries + [e];
    }
  }

  /** The report sink (ExtentReports): the nodes created so far and how often it was flushed. */
  class ExtentReports {
    var tests: seq<ExtentTest>
    var flushCount: nat

    constructor ()
      ensures tests == [] && flushCount == 0
    {
      tests := [];
      flushCount := 0;
    }

    /** CreateTest: a new, empty node with the given title, added after the existing ones. */
    method CreateTest(name: string) returns (t: ExtentTest)
      modifies this
      ensures fresh(t) && t.name == name && t.entries == []
      ensures tests == old(tests) + [t] && flushCount == old(flushCount)
    {
      t := new ExtentTest(name);
      tests := tests + [t];
    }

    /** Flush writes the report out; the nodes stay as they are. */
    method Flush()
      modifies this
      ensures tests == old(tests) && flushCount == old(flushCount) + 1
    {
      flushCount := flushCount + 1;
    }
  }
}
