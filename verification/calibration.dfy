/** The calibration record and the keyboard commands that edit it. */
module Calibration {
  import opened Geometry
  import opened Pipeline

  /** The persisted calibration: the four keystone source corners, the
      zoom rectangle, the exposure compensation and the capture device. */
  datatype Config = Config(points: seq<Point>, zoomRoi: Roi, exposure: int, cameraId: int)

  /** Default corners: those of the 640x480 canvas, clockwise from top-left. */
  const DefaultPoints: seq<Point> := [Point(0, 0), Point(640, 0), Point(640, 480), Point(0, 480)]
  /** Default zoom rectangle: the whole 640x480 canvas. */
  const DefaultRoi: Roi := Roi(0, 0, 640, 480)
  const DefaultConfig: Config := Config(DefaultPoints, DefaultRoi, -6, 1)

  /** Key codes, as the characters' code points. */
  const KeyQuit: int := 'q' as int
  const KeyReset: int := 'r' as int
  const KeyPlus: int := '+' as int
  const KeyEquals: int := '=' as int
  const KeyMinus: int := '-' as int

  /** `waitKey(1) & 0xFF`: the low byte of the polled key, where the poll
      yields -1 when no key was pressed. */
  function MaskKey(raw: int): (k: int)
    ensures 0 <= k < 256
    ensures (raw - k) % 256 == 0
    ensures 0 <= raw < 256 ==> k == raw
  {
    raw % 256
  }

  /** Result of one keyboard poll: the new record, and whether to leave the loop. */
  datatype KeyOutcome = KeyOutcome(config: Config, quit: bool)

  /** One keyboard command: `q` quits, `r` resets the zoom rectangle and the
      corners, `+`/`=` and `-` step the exposure; any other key is ignored. */
  function KeyStep(c: Config, key: int): (r: KeyOutcome)
    ensures r.quit <==> key == KeyQuit
    ensures r.config.cameraId == c.cameraId
    ensures key == KeyReset ==>
      r.config.zoomRoi == DefaultRoi && r.config.points == DefaultPoints && r.config.exposure == c.exposure
    ensures key == KeyPlus || key == KeyEquals ==> r.config == c.(exposure := c.exposure + 1)
    ensures key == KeyMinus ==> r.config == c.(exposure := c.exposure - 1)
    ensures key !in {KeyReset, KeyPlus, KeyEquals, KeyMinus} ==> r.config == c
    ensures |r.config.points| == |c.points| || r.config.points == DefaultPoints
  {
    if key == KeyQuit then KeyOutcome(c, true)
    else if key == KeyReset then KeyOutcome(c.(zoomRoi := DefaultRoi, points := DefaultPoints), false)
    else if key == KeyEquals || key == KeyPlus then KeyOutcome(c.(exposure := c.exposure + 1), false)
    else if key == KeyMinus then KeyOutcome(c.(exposure := c.exposure - 1), false)
    else KeyOutcome(c, false)
  }

  /** The defaults are a reset state: resetting them changes nothing, and
      they start with exposure -6 on device 1. */
  lemma ResetKeepsDefaults()
    ensures KeyStep(DefaultConfig, KeyReset) == KeyOutcome(DefaultConfig, false)
    ensures DefaultConfig.exposure == -6 && DefaultConfig.cameraId == 1
  {
  }

  /** A poll in which no key was pressed changes nothing and does not quit. */
  lemma NoKeyIgnored(c: Config)
    ensures KeyStep(c, MaskKey(-1)) == KeyOutcome(c, false)
  {
  }

  /** Raising the exposure and lowering it again restores the record, in either order. */
  lemma ExposureRoundTrip(c: Config, up: int)
    requires up == KeyPlus || up == KeyEquals
    ensures KeyStep(KeyStep(c, up).config, KeyMinus).config == c
    ensures KeyStep(KeyStep(c, KeyMinus).config, up).config == c
  {
  }

  /** Reset does not depend on the state it is applied to: two records that
      agree on exposure and device reset to the same record, and resetting
      twice is resetting once. */
  lemma ResetForgetsGeometry(c: Config, d: Config)
    requires c.exposure == d.exposure && c.cameraId == d.cameraId
    ensures KeyStep(c, KeyReset).config == KeyStep(d, KeyReset).config
    ensures KeyStep(KeyStep(c, KeyReset).config, KeyReset).config == KeyStep(c, KeyReset).config
  {
  }

  /** After a reset the calibration is the identity: the corners are the
      canvas corners the warp maps onto, and the zoom rectangle is the whole
      canvas, which the clamp keeps and the crop cuts out whole. */
  lemma ResetIsIdentityCalibration(c: Config)
    ensures KeyStep(c, KeyReset).config.points == WarpCorners
    ensures SelectKeystoneInput(KeyStep(c, KeyReset).config.zoomRoi) == ResizedCrop(DefaultRoi)
    ensures DefaultRoi == Roi(0, 0, CanvasWidth, CanvasHeight)
  {
  }
}
