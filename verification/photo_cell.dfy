/** The gallery's thumbnail cell (`PhotoCell.swift`): an image view and the
    identifier of the asset the cell is currently bound to. */
module PhotoCells {
  import opened Optional

  /** The content of an image view. `Blank` is the empty `UIImage()` the grid
      shows while a thumbnail is on its way; `Picture` is decoded content. */
  datatype Image = Blank | Picture(content: nat)

  class PhotoCell {
    /** `imageView.image`. */
    var image: Option<Image>
    /** `currentAssetIdentifier`: only the methods below assign it. */
    var currentAssetIdentifier: Option<string>

    /** A freshly created cell is bound to no asset and shows nothing. */
    constructor ()
      ensures image == None && currentAssetIdentifier == None
    {
      image := None;
      currentAssetIdentifier := None;
    }

    /** Binds the cell to `assetIdentifier` and shows `image`; the latest
        binding replaces any earlier one. */
    method Configure(image: Image, assetIdentifier: string)
      modifies this
      ensures this.image == Some(image)
      ensures currentAssetIdentifier == Some(assetIdentifier)
    {
      currentAssetIdentifier := Some(assetIdentifier);
      this.image := Some(image);
    }

    /** Called by the collection view before the cell is handed out again:
        the cell forgets both its image and its asset. */
    method PrepareForReuse()
      modifies this
      ensures image == None && currentAssetIdentifier == None
    {
      image := None;
      currentAssetIdentifier := None;
    }
  }
}
