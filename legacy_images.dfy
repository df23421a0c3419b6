/**
 * The older image models of pkg/images (base.go and machine.go): images
 * live in diskpath/<UUID>/, and the version files are numbered from 0.img.
 */
module LegacyImages {
  import opened Wrappers
  import opened ImageBase

  const FS_FAT32: string := "fat32"
  const FS_EXT4: string := "ext4"

  datatype Version = Version(version: Uint64, imageModelUuid: string)

  datatype ImageModel = ImageModel(
    name: string,
    versions: seq<Version>,
    uuid: string,
    username: string,
    compression: string,
    fileType: DiskType,
    kind: string,
    checksum: string)

  /** The first version file of an image: FilePathFmt "/%s/%v.img" after diskpath, with the UUID and "0". */
  function ImageFilePath(image: ImageModel, diskpath: string): string
  {
    diskpath + "/" + image.uuid + "/" + "0" + ".img"
  }

  /** CreateImageFile(imageSize, diskpath, baseSize): a file of imageSize * baseSize bytes at diskpath/<UUID>/0.img. */
  method CreateImageFile(image: ImageModel, fs: Files, imageSize: Uint64, diskpath: string, baseSize: Uint64, faults: FileFaults)
    returns (fs': Files, err: Option<FileError>)
    ensures faults.openFails ==> fs' == fs && err == Some(OpenError)
    ensures !faults.openFails ==> fs'.lengths.Keys == fs.lengths.Keys + {ImageFilePath(image, diskpath)} && fs'.dirs == fs.dirs
    ensures err.None? ==>
      SeekOffset(ImageFileSize(imageSize, baseSize)) >= 0 &&
      fs'.lengths[ImageFilePath(image, diskpath)] ==
        Extended(fs, ImageFilePath(image, diskpath), SeekOffset(ImageFileSize(imageSize, baseSize)))
  {
    fs', err := CreateSizedFile(fs, ImageFilePath(image, diskpath), imageSize, baseSize, faults);
  }

  datatype MachineImageModel = MachineImageModel(image: ImageModel, machineMac: string, filesystem: string, size: Uint64)

  /** CreateMachineModel(image, mac): the image unchanged, the MAC, ext4 and 128 MiB; the error is always nil. */
  function CreateMachineModel(image: ImageModel, mac: string): (r: MachineImageModel)
    ensures r.image == image && r.machineMac == mac && r.size == 128 && r.filesystem == FS_EXT4
  {
    MachineImageModel(image, mac, FS_EXT4, 128)
  }
}
