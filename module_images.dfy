/**
 * The `images` list that `parseModuleConfigImages` builds for a plugin or theme
 * (system/server/src/services/cms.service.ts:159-190). Reading the image file
 * and encoding it as base64 is I/O: its outcome is a parameter.
 */
module ModuleImages {
  import opened Wrappers

  /** The part of a module's `cromwell` config the function updates in place. */
  class ModuleInfo {
    var image: Option<string>
    var images: Option<seq<string>>

    constructor (image: Option<string>, images: Option<seq<string>>)
      ensures this.image == image && this.images == images
    {
      this.image := image;
      this.images := images;
    }
  }

  /** `if (!images.includes(image)) images.push(image)`. */
  function WithImage(images: seq<string>, image: string): (r: seq<string>)
    ensures image in r
    ensures forall x :: x in r <==> x in images || x == image
    ensures NoDuplicates(images) ==> NoDuplicates(r)
    ensures image in images ==> r == images
    ensures image !in images ==> r == images + [image]
  {
    if image in images then images else images + [image]
  }

  /** Adding the same image twice is adding it once. */
  lemma WithImageIdempotent(images: seq<string>, image: string)
    ensures WithImage(WithImage(images, image), image) == WithImage(images, image)
  {
  }

  predicate IsSet(s: Option<string>) {
    s.Some? && s.value != ""
  }

  /**
   * `encoded` is the base64 content of the image file, or `None` when the
   * module directory or the file cannot be found.
   */
  method ParseModuleConfigImages(info: ModuleInfo?, encoded: Option<string>)
    modifies info
    ensures info != null ==>
      var image := if IsSet(old(info.image)) && IsSet(encoded) then encoded else old(info.image);
      var images := old(info.images).GetOr([]);
      && info.image == image
      && info.images == Some(if IsSet(old(info.image)) then WithImage(images, image.value) else images)
  {
    if info == null {
      return;
    }
    if info.images.None? {
      info.images := Some([]);
    }
    if IsSet(info.image) {
      if IsSet(encoded) {
        info.image := encoded;
      }
      if info.image.value !in info.images.value {
        info.images := Some(info.images.value + [info.image.value]);
      }
    }
  }
}
