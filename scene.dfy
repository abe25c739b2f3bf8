/** The drawing canvas as the two drawing editors see it: elements with an
    identity, a version counter, a random nonce that changes with every
    version, and geometry; the canvas's view state; and the fingerprints the
    editors compare to decide whether a change is worth saving. The scene
    serialisation and the preview export belong to the drawing library and
    stay abstract here. */
module Scene {
  import opened Wrappers

  datatype Point = Point(x: real, y: real)

  /** The fields of a canvas element the editors read. `points` is present
      only on linear elements (lines, arrows, free-hand strokes). */
  datatype Element = Element(
    id: string,
    version: int,
    versionNonce: int,
    x: real,
    y: real,
    width: real,
    height: real,
    points: Option<seq<Point>>)

  /** The part of the canvas view state the editors touch. */
  datatype AppState = AppState(theme: string, viewBackgroundColor: string)

  datatype Scene = Scene(elements: seq<Element>, appState: AppState)

  /** One element's entry in the drawing editor's fingerprint: id, version and nonce. */
  datatype Stamp = Stamp(id: string, v: int, n: int)

  /** One element's entry in the legacy editor's fingerprint, which adds the geometry. */
  datatype LegacyStamp = LegacyStamp(id: string, x: real, y: real, w: real, h: real, v: int, n: int, p: Option<seq<Point>>)

  function StampOf(e: Element): Stamp {
    Stamp(e.id, e.version, e.versionNonce)
  }

  function LegacyStampOf(e: Element): LegacyStamp {
    LegacyStamp(e.id, e.x, e.y, e.width, e.height, e.version, e.versionNonce, e.points)
  }

  /** The drawing editor's fingerprint of a scene: one stamp per element, in order. */
  function Fingerprint(els: seq<Element>): (r: seq<Stamp>)
    ensures |r| == |els|
    ensures forall i :: 0 <= i < |els| ==> r[i] == Stamp(els[i].id, els[i].version, els[i].versionNonce)
  {
    seq(|els|, i requires 0 <= i < |els| => StampOf(els[i]))
  }

  /** The legacy editor's fingerprint: one stamp with geometry per element, in order. */
  function LegacyFingerprint(els: seq<Element>): (r: seq<LegacyStamp>)
    ensures |r| == |els|
    ensures forall i :: 0 <= i < |els| ==> r[i] == LegacyStampOf(els[i])
  {
    seq(|els|, i requires 0 <= i < |els| => LegacyStampOf(els[i]))
  }

  /** Two scenes look the same to the drawing editor exactly when they have
      the same elements by id, version and nonce, in the same order. */
  lemma FingerprintEqual(a: seq<Element>, b: seq<Element>)
    ensures Fingerprint(a) == Fingerprint(b) <==>
              |a| == |b| && forall i :: 0 <= i < |a| ==>
                a[i].id == b[i].id && a[i].version == b[i].version && a[i].versionNonce == b[i].versionNonce
  {
    if |a| == |b| && forall i :: 0 <= i < |a| ==>
         a[i].id == b[i].id && a[i].version == b[i].version && a[i].versionNonce == b[i].versionNonce
    {
      assert forall i :: 0 <= i < |a| ==> Fingerprint(a)[i] == Fingerprint(b)[i];
    }
    if Fingerprint(a) == Fingerprint(b) {
      assert forall i :: 0 <= i < |a| ==> StampOf(a[i]) == Fingerprint(a)[i];
    }
  }

  /** The legacy fingerprint is the finer one: whenever it sees no change,
      neither does the drawing editor's. */
  lemma LegacyFingerprintFiner(a: seq<Element>, b: seq<Element>)
    requires LegacyFingerprint(a) == LegacyFingerprint(b)
    ensures Fingerprint(a) == Fingerprint(b)
  {
    assert |a| == |b|;
    forall i | 0 <= i < |a|
      ensures Fingerprint(a)[i] == Fingerprint(b)[i]
    {
      assert LegacyFingerprint(a)[i] == LegacyFingerprint(b)[i];
    }
  }

  /** A change of position alone (same id, version and nonce) is invisible to
      the drawing editor's fingerprint and visible to the legacy one. */
  lemma MoveOnlyTripsLegacy(els: seq<Element>, i: nat, dx: real)
    requires i < |els| && dx != 0.0
    ensures var moved := els[i := els[i].(x := els[i].x + dx)];
            Fingerprint(moved) == Fingerprint(els) && LegacyFingerprint(moved) != LegacyFingerprint(els)
  {
    var moved := els[i := els[i].(x := els[i].x + dx)];
    FingerprintEqual(moved, els);
    assert LegacyFingerprint(moved)[i].x != LegacyFingerprint(els)[i].x;
  }
}
