/**
 The scene state that the sprite exporter's `execute` operator reads and writes
 (io_export_gms_sprite.py, lines 59-114), and the operator's framing step as a
 method that updates that state in place.
 */
module SpriteExport {
  import opened Framing

  /** A scene object: its location and its dimensions (the size of its bounding
      box along each axis). The selected object and the camera object are both. */
  class SceneObject {
    var location: Vec3
    var dimensions: Vec3

    constructor (location: Vec3, dimensions: Vec3)
      ensures this.location == location && this.dimensions == dimensions
    {
      this.location := location;
      this.dimensions := dimensions;
    }
  }

  /** The camera data block of the scene camera. */
  class CameraData {
    var orthoScale: real

    constructor (orthoScale: real)
      ensures this.orthoScale == orthoScale
    {
      this.orthoScale := orthoScale;
    }
  }

  /** The scene's render settings: the output canvas size. */
  class RenderSettings {
    var resolutionX: real
    var resolutionY: real

    constructor (resolutionX: real, resolutionY: real)
      ensures this.resolutionX == resolutionX && this.resolutionY == resolutionY
    {
      this.resolutionX := resolutionX;
      this.resolutionY := resolutionY;
    }
  }

  /** How the operator ends: it finishes, having computed the sprite origin, or it
      raises a division by zero while refitting the canvas. */
  datatype Outcome = Finished(origin: Pair) | ZeroDivision

  /** What the operator sees of its context: the selected object, the scene camera
      object with its camera data, the render settings and the 3D cursor. */
  class ExportContext {
    const selected: SceneObject
    const cameraObject: SceneObject
    const camera: CameraData
    const render: RenderSettings
    const cursorLocation: Vec3

    constructor (selected: SceneObject, cameraObject: SceneObject, camera: CameraData,
                 render: RenderSettings, cursorLocation: Vec3)
      ensures this.selected == selected && this.cameraObject == cameraObject
      ensures this.camera == camera && this.render == render
      ensures this.cursorLocation == cursorLocation
    {
      this.selected := selected;
      this.cameraObject := cameraObject;
      this.camera := camera;
      this.render := render;
      this.cursorLocation := cursorLocation;
    }

    /** Frames the selected object and the cursor: sets the orthographic scale to
        the frame's longer side, refits the resolution of the shorter side, and
        places the camera above the frame's centre at half the object's `y`
        dimension. When the frame has no extent the refit divides by zero after
        the scale has already been written, and nothing further changes. The
        selected object (unless it is the camera object itself) and the cursor are
        only read. */
    method Execute() returns (outcome: Outcome)
      modifies cameraObject, camera, render
      ensures var box := FrameBox(old(selected.location), old(selected.dimensions), Plane(cursorLocation));
              var fit := Refit(box.Width(), box.Height(),
                               Resolution(old(render.resolutionX), old(render.resolutionY)));
              && camera.orthoScale == OrthoScale(box)
              && (fit.None? ==>
                    && outcome == ZeroDivision
                    && render.resolutionX == old(render.resolutionX)
                    && render.resolutionY == old(render.resolutionY)
                    && cameraObject.location == old(cameraObject.location))
              && (fit.Some? ==>
                    && outcome == Finished(OriginOffset(box, Plane(cursorLocation)))
                    && Resolution(render.resolutionX, render.resolutionY) == fit.value
                    && cameraObject.location == Vec3(Center(box).x, Center(box).y, selected.dimensions.y * 0.5))
      ensures selected.dimensions == old(selected.dimensions)
      ensures cameraObject.dimensions == old(cameraObject.dimensions)
      ensures selected != cameraObject ==> selected.location == old(selected.location)
    {
      var pos := selected.location;
      var dim := selected.dimensions;
      var cursor := Plane(cursorLocation);
      var box := FrameBox(pos, dim, cursor);
      var camXY := Center(box);
      var origin := OriginOffset(box, cursor);
      var w, h := box.Width(), box.Height();

      if w >= h {
        camera.orthoScale := w;
        if w == 0.0 {
          return ZeroDivision;
        }
        render.resolutionY := h / w * render.resolutionX;
      } else {
        camera.orthoScale := h;
        render.resolutionX := w / h * render.resolutionY;
      }

      cameraObject.location := Vec3(camXY.x, camXY.y, 0.0);
      cameraObject.location := cameraObject.location.(z := selected.dimensions.y * 0.5);
      outcome := Finished(origin);
    }
  }
}
