/**
 The pure decisions inside the virtual-machine service: resolving an image descriptor to
 an image reference (explicit ID, then Shared Image Gallery path, then Marketplace
 reference), wrapping it into a storage profile, classifying the outcome of a delete,
 and turning random bytes into a URL-safe password.
 */
module VirtualMachines {
  import opened Common
  import Base64Url
  import ResourcePaths

  /** infrav1.Image: an image descriptor in which every field may be nil. */
  datatype Image = Image(
    id: Option<string>,
    subscriptionID: Option<string>,
    resourceGroup: Option<string>,
    gallery: Option<string>,
    name: Option<string>,
    version: Option<string>,
    publisher: Option<string>,
    offer: Option<string>,
    sku: Option<string>)

  /** The fields of an image descriptor, by their Go names. */
  datatype ImageField = ID | SubscriptionID | ResourceGroup | Gallery | Name | Version | Publisher | Offer | SKU

  function FieldOf(image: Image, f: ImageField): Option<string> {
    match f
    case ID => image.id
    case SubscriptionID => image.subscriptionID
    case ResourceGroup => image.resourceGroup
    case Gallery => image.gallery
    case Name => image.name
    case Version => image.version
    case Publisher => image.publisher
    case Offer => image.offer
    case SKU => image.sku
  }

  /** The five coordinates of a gallery image, in the order they are validated. */
  const GalleryCoordinates: seq<ImageField> := [SubscriptionID, ResourceGroup, Gallery, Name, Version]

  /** The four fields of a Marketplace image, in the order they are validated. */
  const MarketplaceFields: seq<ImageField> := [Publisher, Offer, SKU, Version]

  /** All five gallery coordinates are set. */
  predicate GalleryComplete(image: Image) {
    image.subscriptionID.Some? && image.resourceGroup.Some? && image.gallery.Some? && image.name.Some?
    && image.version.Some?
  }

  /** All four Marketplace fields are set. */
  predicate MarketplaceComplete(image: Image) {
    image.publisher.Some? && image.offer.Some? && image.sku.Some? && image.version.Some?
  }

  /** `fields[i]` is nil and every field validated before it is set. */
  predicate FirstMissing(image: Image, fields: seq<ImageField>, i: int) {
    && 0 <= i < |fields|
    && FieldOf(image, fields[i]).None?
    && forall j :: 0 <= j < i ==> FieldOf(image, fields[j]).Some?
  }

  /** The fixed tail of every gallery-coordinate error. */
  const GalleryMissingSuffix: string := " cannot be nil when specifying an image from an Azure Shared Image Gallery"

  /** The error text for a nil gallery coordinate. */
  function GalleryMissingMessage(f: ImageField): string
    requires f in GalleryCoordinates
  {
    var what :=
      match f
      case SubscriptionID => "subscription ID"
      case ResourceGroup => "resource group"
      case Gallery => "gallery"
      case Name => "name"
      case _ => "version";
    "Image " + what + GalleryMissingSuffix
  }

  /** The fixed head of every Marketplace-field error. */
  const MarketplaceMissingPrefix: string := "Image reference cannot be generated, as "

  /** The error text for a nil Marketplace field. */
  function MarketplaceMissingMessage(f: ImageField): string
    requires f in MarketplaceFields
  {
    var what :=
      match f
      case Publisher => "Publisher"
      case Offer => "Offer"
      case SKU => "SKU"
      case _ => "Version";
    MarketplaceMissingPrefix + what + " field is missing"
  }

  /** compute.ImageReference: either an ID, or a Marketplace quadruple. */
  datatype ImageReference = ImageReference(
    id: Option<string>,
    publisher: Option<string>,
    offer: Option<string>,
    sku: Option<string>,
    version: Option<string>)

  /** A reference by resource ID only. */
  function IdReference(id: string): ImageReference {
    ImageReference(Some(id), None, None, None, None)
  }

  /** The resource ID of version `version` of image `name` in gallery `gallery`. */
  function GalleryImagePath(sub: string, rg: string, gallery: string, name: string, version: string): string {
    "/subscriptions/" + sub + "/resourceGroups/" + rg + "/providers/Microsoft.Compute/galleries/" + gallery
      + "/images/" + name + "/versions/" + version
  }

  /** Appending "/w/" then `y` reads as two more segments, `w` and `y`. */
  lemma SplitAppendWord(x: string, literal: string, w: string, y: string)
    requires literal == [ResourcePaths.Separator] + w + [ResourcePaths.Separator]
    requires ResourcePaths.Separator !in w && ResourcePaths.Separator !in y
    ensures ResourcePaths.Split(x + literal + y) == ResourcePaths.Split(x) + [w, y]
  {
    assert x + literal + y == x + [ResourcePaths.Separator] + w + [ResourcePaths.Separator] + y;
    ResourcePaths.SplitSnoc(x + [ResourcePaths.Separator] + w, y);
    ResourcePaths.SplitSnoc(x, w);
  }

  /** The gallery path with its middle literal cut at the separators used below. */
  lemma GalleryImagePathPieces(sub: string, rg: string, gallery: string, name: string, version: string)
    ensures GalleryImagePath(sub, rg, gallery, name, version)
         == "/subscriptions/" + sub + "/resourceGroups/" + rg + "/providers/" + "Microsoft.Compute"
          + "/galleries/" + gallery + "/images/" + name + "/versions/" + version
  {
    var x := "/subscriptions/" + sub + "/resourceGroups/" + rg;
    assert "/providers/Microsoft.Compute/galleries/" == "/providers/" + "Microsoft.Compute" + "/galleries/";
    assert x + "/providers/Microsoft.Compute/galleries/" == x + "/providers/" + "Microsoft.Compute" + "/galleries/";
  }

  /** The part of the gallery path before the gallery name. */
  lemma GalleryPathPrefixSegments(sub: string, rg: string)
    requires ResourcePaths.Separator !in sub && ResourcePaths.Separator !in rg
    ensures ResourcePaths.Split("/subscriptions/" + sub + "/resourceGroups/" + rg + "/providers/" + "Microsoft.Compute")
         == ["", "subscriptions", sub, "resourceGroups", rg, "providers", "Microsoft.Compute"]
  {
    var p3 := "/subscriptions/" + sub;
    var p5 := p3 + "/resourceGroups/" + rg;
    assert "" + "/subscriptions/" + sub == p3;
    SplitAppendWord("", "/subscriptions/", "subscriptions", sub);
    SplitAppendWord(p3, "/resourceGroups/", "resourceGroups", rg);
    SplitAppendWord(p5, "/providers/", "providers", "Microsoft.Compute");
  }

  /** The gallery path is the thirteen-segment resource ID (the first segment is the empty
      one before the leading '/') with the five coordinates in their slots, so the
      coordinates can be read back from it. */
  lemma GalleryImagePathSegments(sub: string, rg: string, gallery: string, name: string, version: string)
    requires ResourcePaths.Separator !in sub && ResourcePaths.Separator !in rg
    requires ResourcePaths.Separator !in gallery && ResourcePaths.Separator !in name
    requires ResourcePaths.Separator !in version
    ensures ResourcePaths.Split(GalleryImagePath(sub, rg, gallery, name, version))
         == ["", "subscriptions", sub, "resourceGroups", rg, "providers", "Microsoft.Compute",
             "galleries", gallery, "images", name, "versions", version]
  {
    var p7 := "/subscriptions/" + sub + "/resourceGroups/" + rg + "/providers/" + "Microsoft.Compute";
    var p9 := p7 + "/galleries/" + gallery;
    var p11 := p9 + "/images/" + name;
    GalleryImagePathPieces(sub, rg, gallery, name, version);
    GalleryPathPrefixSegments(sub, rg);
    SplitAppendWord(p7, "/galleries/", "galleries", gallery);
    SplitAppendWord(p9, "/images/", "images", name);
    SplitAppendWord(p11, "/versions/", "versions", version);
  }

  /** The gallery path is exactly its thirteen segments joined with '/'. */
  lemma GalleryImagePathIsJoin(sub: string, rg: string, gallery: string, name: string, version: string)
    requires ResourcePaths.Separator !in sub && ResourcePaths.Separator !in rg
    requires ResourcePaths.Separator !in gallery && ResourcePaths.Separator !in name
    requires ResourcePaths.Separator !in version
    ensures GalleryImagePath(sub, rg, gallery, name, version)
         == ResourcePaths.Join(["", "subscriptions", sub, "resourceGroups", rg, "providers", "Microsoft.Compute",
                                "galleries", gallery, "images", name, "versions", version])
  {
    GalleryImagePathSegments(sub, rg, gallery, name, version);
    ResourcePaths.JoinSplit(GalleryImagePath(sub, rg, gallery, name, version));
  }

  /** generateSIGImageID: the gallery resource ID, or an error naming the first nil coordinate. */
  function GenerateSIGImageID(image: Image): (r: Result<string>)
    ensures r.Success? <==> GalleryComplete(image)
    ensures r.Success? ==> r.value == GalleryImagePath(image.subscriptionID.value, image.resourceGroup.value,
                                                       image.gallery.value, image.name.value, image.version.value)
    ensures r.Failure? ==> exists i :: FirstMissing(image, GalleryCoordinates, i)
                                 && r.error == Fatal(GalleryMissingMessage(GalleryCoordinates[i]))
  {
    if image.subscriptionID.None? then
      assert FirstMissing(image, GalleryCoordinates, 0);
      Failure(Fatal(GalleryMissingMessage(GalleryCoordinates[0])))
    else if image.resourceGroup.None? then
      assert FirstMissing(image, GalleryCoordinates, 1);
      Failure(Fatal(GalleryMissingMessage(GalleryCoordinates[1])))
    else if image.gallery.None? then
      assert FirstMissing(image, GalleryCoordinates, 2);
      Failure(Fatal(GalleryMissingMessage(GalleryCoordinates[2])))
    else if image.name.None? then
      assert FirstMissing(image, GalleryCoordinates, 3);
      Failure(Fatal(GalleryMissingMessage(GalleryCoordinates[3])))
    else if image.version.None? then
      assert FirstMissing(image, GalleryCoordinates, 4);
      Failure(Fatal(GalleryMissingMessage(GalleryCoordinates[4])))
    else
      Success(GalleryImagePath(image.subscriptionID.value, image.resourceGroup.value,
                               image.gallery.value, image.name.value, image.version.value))
  }

  /** A generated gallery ID names the five coordinates in their slots, provided none of
      them contains a '/'. */
  lemma SIGImageIDCoordinates(image: Image)
    requires GalleryComplete(image)
    requires forall f :: f in GalleryCoordinates ==> ResourcePaths.Separator !in FieldOf(image, f).value
    ensures GenerateSIGImageID(image).Success?
    ensures var segments := ResourcePaths.Split(GenerateSIGImageID(image).value);
      && |segments| == 13
      && segments[2] == image.subscriptionID.value && segments[4] == image.resourceGroup.value
      && segments[8] == image.gallery.value && segments[10] == image.name.value
      && segments[12] == image.version.value
  {
    assert SubscriptionID in GalleryCoordinates && ResourceGroup in GalleryCoordinates;
    assert Gallery in GalleryCoordinates && Name in GalleryCoordinates && Version in GalleryCoordinates;
    GalleryImagePathSegments(image.subscriptionID.value, image.resourceGroup.value, image.gallery.value,
                             image.name.value, image.version.value);
  }

  /** generateImagePlan: the Marketplace reference, or an error naming the first nil field. */
  function GenerateImagePlan(image: Image): (r: Result<ImageReference>)
    ensures r.Success? <==> MarketplaceComplete(image)
    ensures r.Success? ==> r.value == ImageReference(None, image.publisher, image.offer, image.sku, image.version)
    ensures r.Failure? ==> exists i :: FirstMissing(image, MarketplaceFields, i)
                                 && r.error == Fatal(MarketplaceMissingMessage(MarketplaceFields[i]))
  {
    if image.publisher.None? then
      assert FirstMissing(image, MarketplaceFields, 0);
      Failure(Fatal(MarketplaceMissingMessage(MarketplaceFields[0])))
    else if image.offer.None? then
      assert FirstMissing(image, MarketplaceFields, 1);
      Failure(Fatal(MarketplaceMissingMessage(MarketplaceFields[1])))
    else if image.sku.None? then
      assert FirstMissing(image, MarketplaceFields, 2);
      Failure(Fatal(MarketplaceMissingMessage(MarketplaceFields[2])))
    else if image.version.None? then
      assert FirstMissing(image, MarketplaceFields, 3);
      Failure(Fatal(MarketplaceMissingMessage(MarketplaceFields[3])))
    else
      Success(ImageReference(None, image.publisher, image.offer, image.sku, image.version))
  }

  /** generateImageReference: an explicit ID wins, then a complete gallery descriptor, and
      only then the Marketplace fields; the gallery step's error is never returned. */
  function GenerateImageReference(image: Image): (r: Result<ImageReference>)
    ensures r.Success? ==> (r.value.id.Some? <==> r.value.publisher.None?)
    ensures image.id.Some? ==> r == Success(ImageReference(image.id, None, None, None, None))
    ensures image.id.None? && GalleryComplete(image) ==>
      r == Success(IdReference(GalleryImagePath(image.subscriptionID.value, image.resourceGroup.value,
                                                image.gallery.value, image.name.value, image.version.value)))
    ensures image.id.None? && !GalleryComplete(image) ==>
      && (r.Success? <==> MarketplaceComplete(image))
      && (r.Success? ==> r.value == ImageReference(None, image.publisher, image.offer, image.sku, image.version))
      && (r.Failure? ==> exists i :: FirstMissing(image, MarketplaceFields, i)
                               && r.error == Fatal(MarketplaceMissingMessage(MarketplaceFields[i])))
  {
    if image.id.Some? then
      Success(ImageReference(image.id, None, None, None, None))
    else
      match GenerateSIGImageID(image)
      case Success(id) => Success(IdReference(id))
      case Failure(_) => GenerateImagePlan(image)
  }

  /** infrav1.ManagedDisk. */
  datatype ManagedDisk = ManagedDisk(storageAccountType: string)

  /** infrav1.OSDisk. */
  datatype OSDiskSpec = OSDiskSpec(osType: string, diskSizeGB: int32, managedDisk: ManagedDisk)

  /** Spec: the input of Get/Reconcile/Delete for one virtual machine. */
  datatype Spec = Spec(
    name: string,
    nicName: string,
    sshKeyData: string,
    size: string,
    zone: string,
    image: Image,
    osDisk: OSDiskSpec,
    customData: string)

  /** compute.DiskCreateOptionTypesFromImage. */
  const FromImage: string := "FromImage"

  /** compute.OSDisk as the storage profile sets it (name and size are always present). */
  datatype OSDisk = OSDisk(
    name: string,
    osType: string,
    createOption: string,
    diskSizeGB: int32,
    managedDisk: ManagedDisk)

  /** compute.StorageProfile. */
  datatype StorageProfile = StorageProfile(osDisk: OSDisk, imageReference: ImageReference)

  /** generateStorageProfile: the OS disk taken from the spec plus the resolved image.
      `osDiskName` is the disk-name generator (azure.GenerateOSDiskName). */
  function GenerateStorageProfile(spec: Spec, osDiskName: string -> string): (r: Result<StorageProfile>)
    ensures r.Failure? <==> GenerateImageReference(spec.image).Failure?
    ensures r.Failure? ==> r.error == GenerateImageReference(spec.image).error
    ensures r.Success? ==>
      && r.value.imageReference == GenerateImageReference(spec.image).value
      && r.value.osDisk.name == osDiskName(spec.name)
      && r.value.osDisk.createOption == FromImage
      && r.value.osDisk.osType == spec.osDisk.osType
      && r.value.osDisk.diskSizeGB == spec.osDisk.diskSizeGB
      && r.value.osDisk.managedDisk == spec.osDisk.managedDisk
  {
    var osDisk := OSDisk(osDiskName(spec.name), spec.osDisk.osType, FromImage, spec.osDisk.diskSizeGB,
                         ManagedDisk(spec.osDisk.managedDisk.storageAccountType));
    match GenerateImageReference(spec.image)
    case Failure(e) => Failure(e)
    case Success(ref) => Success(StorageProfile(osDisk, ref))
  }

  /** What the Azure client reported at each step of a delete: the submission, the wait
      for the long-running operation, and the fetch of its result (`None` = no error). */
  datatype DeleteCalls = DeleteCalls(submit: Option<Error>, wait: Option<Error>, result: Option<Error>)

  /** Delete: a resource that is already gone counts as deleted; every other failure is
      returned, the submission failure with the VM and resource group named. */
  function Delete(spec: Spec, resourceGroup: string, calls: DeleteCalls): (err: Option<Error>)
    ensures err.None? <==>
      || (calls.submit.Some? && ResourceNotFound(calls.submit.value))
      || (calls.submit.None? && calls.wait.None? && calls.result.None?)
    ensures calls.submit.Some? && !ResourceNotFound(calls.submit.value) ==>
      err == Some(Wrapped("failed to delete vm " + spec.name + " in resource group " + resourceGroup,
                          calls.submit.value))
    ensures calls.submit.None? && calls.wait.Some? ==>
      err == Some(Wrapped("cannot delete, future response", calls.wait.value))
    ensures calls.submit.Some? && !ResourceNotFound(calls.submit.value) ==>
      err.value.Text() == "failed to delete vm " + spec.name + " in resource group " + resourceGroup + ": "
                          + calls.submit.value.Text()
    ensures calls.submit.None? && calls.wait.Some? ==>
      err.value.Text() == "cannot delete, future response: " + calls.wait.value.Text()
    ensures calls.submit.None? && calls.wait.None? ==> err == calls.result
  {
    match calls.submit
    case Some(e) =>
      if ResourceNotFound(e) then None
      else Some(Wrapped("failed to delete vm " + spec.name + " in resource group " + resourceGroup, e))
    case None =>
      match calls.wait
      case Some(e) => Some(Wrapped("cannot delete, future response", e))
      case None => calls.result
  }

  /** What `crypto/rand.Read` did with a buffer of n bytes. */
  datatype RandomRead = Filled(bytes: seq<byte>) | ReadFailed(err: Error)

  /** GenerateRandomString: the padded base64url text of n random bytes, or "" and the
      random source's error. */
  method GenerateRandomString(n: int, read: RandomRead) returns (s: string, err: Option<Error>)
    requires n >= 0
    requires read.Filled? ==> |read.bytes| == n
    ensures read.ReadFailed? ==> s == "" && err == Some(read.err)
    ensures read.Filled? ==> err.None? && |s| == 4 * ((n + 2) / 3)
    ensures read.Filled? ==> Base64Url.Decode(s) == Some(read.bytes)
    ensures forall i :: 0 <= i < |s| ==> Base64Url.IsUrlSafe(s[i]) || s[i] == Base64Url.Pad
  {
    match read
    case ReadFailed(e) =>
      s, err := "", Some(e);
    case Filled(bytes) =>
      s := Base64Url.EncodeToString(bytes);
      Base64Url.DecodeEncode(bytes);
      Base64Url.EncodeAlphabet(bytes);
      err := None;
  }
}
