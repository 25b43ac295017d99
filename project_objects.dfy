/**
 * The objects VPVM's ProjectProxy keeps track of: model and motion instances, undo stacks,
 * bone handles, and the model and motion proxies that wrap an instance for the user
 * interface.  Instances and stacks are known only by their identity.
 */
module ProjectObjects {
  import opened Util

  /** A QUuid. */
  type Uuid = nat

  /** A vpvl2::IModel instance. */
  class Model {
    constructor () {}
  }

  /** A vpvl2::IMotion instance. */
  class Motion {
    constructor () {}
  }

  /** A QUndoStack. */
  class UndoStack {
    constructor () {}
  }

  /** A BoneRefObject: the bone's local pose and the pose a reset restores. */
  class BoneRefObject {
    var localTranslation: QVector3D
    var localOrientation: QQuaternion
    var originLocalTranslation: QVector3D
    var originLocalOrientation: QQuaternion

    constructor (translation: QVector3D, orientation: QQuaternion)
      ensures localTranslation == translation && originLocalTranslation == translation
      ensures localOrientation == orientation && originLocalOrientation == orientation
    {
      localTranslation := translation;
      localOrientation := orientation;
      originLocalTranslation := translation;
      originLocalOrientation := orientation;
    }
  }

  /** A ModelProxy: its model instance, its UUID and its bones (allBoneRefs). */
  class ModelProxy {
    const data: Model
    const uuid: Uuid
    const bones: seq<BoneRefObject>

    constructor (data: Model, uuid: Uuid, bones: seq<BoneRefObject>)
      ensures this.data == data && this.uuid == uuid && this.bones == bones
    {
      this.data := data;
      this.uuid := uuid;
      this.bones := bones;
    }
  }

  /** A MotionProxy: its motion instance, its UUID, the file it came from and its undo stack. */
  class MotionProxy {
    const data: Motion
    const uuid: Uuid
    const fileUrl: string
    const undoStack: UndoStack

    constructor (data: Motion, uuid: Uuid, fileUrl: string, undoStack: UndoStack)
      ensures this.data == data && this.uuid == uuid && this.fileUrl == fileUrl && this.undoStack == undoStack
    {
      this.data := data;
      this.uuid := uuid;
      this.fileUrl := fileUrl;
      this.undoStack := undoStack;
    }
  }
}
