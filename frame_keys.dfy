/**
 * Frame keys: a frame is named `<view><token><position>` (token "-" by default), and the
 * image service is addressed by the "frame name" `frameNameHack` derives from a key.
 */
module FrameKeys {
  import opened Wrappers
  import opened Js

  /** `token || "-"`. */
  function Token(token: string): string
  {
    Or(token, "-")
  }

  /** `getFrameKey(view, position, token)`. */
  function GetFrameKey(view: string, position: string, token: string): string
  {
    view + Token(token) + position
  }

  /** `parseFrameKey(frame, token)`: the key split at every token. */
  function ParseFrameKey(frame: string, token: string): (parts: seq<string>)
    ensures |parts| >= 1
  {
    Split(frame, Token(token))
  }

  /** The key of the frame at a numeric position, with the default token. */
  function FrameKey(view: string, position: nat): string
  {
    GetFrameKey(view, NatToString(position), "")
  }

  /**
   * `frameNameHack(frame)`: "" for an empty key, the position for a "side" key, the view
   * otherwise. A "side" key without a token has no position; JavaScript then returns
   * `undefined`, which every caller treats like "", so the model returns "".
   */
  function FrameNameHack(frame: string): string
  {
    if frame == "" then ""
    else
      var parts := ParseFrameKey(frame, "");
      var position := if |parts| >= 2 then parts[1] else "";
      if parts[0] == "side" then position else parts[0]
  }

  lemma NoDashInNumber(n: nat)
    ensures '-' !in NatToString(n)
  {
  }

  /** Parsing a key gives back its view and position, whatever the token. */
  lemma ParseGetFrameKey(view: string, position: string, token: string)
    requires Token(token)[0] !in view && Token(token)[0] !in position
    ensures ParseFrameKey(GetFrameKey(view, position, token), token) == [view, position]
  {
    var sep := Token(token);
    var xs := [view, position];
    assert Join(xs, sep) == view + sep + position by {
      assert xs[1..] == [position];
    }
    SplitJoin(xs, sep);
  }

  /** The key of a numeric position parses back to the view and, through `parseInt`, the position. */
  lemma FrameKeyRoundTrip(view: string, position: nat)
    requires '-' !in view
    ensures ParseFrameKey(FrameKey(view, position), "") == [view, NatToString(position)]
    ensures ParseInt(ParseFrameKey(FrameKey(view, position), "")[1]) == Some(position)
  {
    NoDashInNumber(position);
    ParseGetFrameKey(view, NatToString(position), "");
    ParseIntNatToString(position);
  }

  /** Distinct frames have distinct keys. */
  lemma FrameKeyInjective(v1: string, p1: nat, v2: string, p2: nat)
    requires '-' !in v1 && '-' !in v2
    requires FrameKey(v1, p1) == FrameKey(v2, p2)
    ensures v1 == v2 && p1 == p2
  {
    FrameKeyRoundTrip(v1, p1);
    FrameKeyRoundTrip(v2, p2);
  }

  /** The frame name of a key: the position for the "side" view, the view name for the others. */
  lemma FrameNameOfKey(view: string, position: nat)
    requires '-' !in view
    ensures FrameNameHack(FrameKey(view, position)) == if view == "side" then NatToString(position) else view
  {
    FrameKeyRoundTrip(view, position);
  }
}
