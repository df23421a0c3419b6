/**
 * The image models of pkg/model/images (base.go and machine.go): an image
 * keeps its directory (ImagePath) and file system, FormatImage chooses the
 * version file and the mkfs command, and the BeforeCreate hooks set the
 * directory from the BAAS_DISK_PATH environment variable (a parameter here)
 * and create it. Running commands and the checksum are not modelled.
 */
module Images {
  import opened Wrappers
  import opened ImageBase
  import Text

  const FS_FAT32: string := "fat32"
  const FS_EXT4: string := "ext4"
  const FS_RAW: string := "raw"

  const COMPRESSION_NONE: string := "none"

  /** The size, in MiB, of the image file BeforeCreate makes. */
  const IMAGE_FILE_SIZE: Uint64 := 512

  datatype Version = Version(version: Uint64, imageModelUuid: string)

  datatype ImageModel = ImageModel(
    name: string,
    versions: seq<Version>,
    uuid: string,
    username: string,
    compression: string,
    fileType: DiskType,
    kind: string,
    checksum: string,
    imagePath: string,
    filesystem: string)

  // ----- FormatImage -----

  /** A command to run: the program name and its arguments. */
  datatype Command = Command(program: string, args: seq<string>)

  datatype FormatOutcome =
    | Formatted(cmd: Command)
      /** Run failed: log.Fatalf ends the process. */
    | FormatFailed(cmd: Command)
      /** A raw image is not formatted. */
    | NotFormatted
      /** No command was chosen and Run is called on the nil command, which panics. */
    | NilCommand

  /** The version FormatImage formats: the last one, plus 1 (in uint64) when the image has no checksum. */
  function FormatVersion(image: ImageModel): (v: Uint64)
    requires |image.versions| > 0
    ensures image.checksum != "" ==> v == image.versions[|image.versions| - 1].version
    ensures image.checksum == "" && image.versions[|image.versions| - 1].version < U64_MOD - 1 ==>
      v == image.versions[|image.versions| - 1].version + 1
    ensures image.checksum == "" && image.versions[|image.versions| - 1].version == U64_MOD - 1 ==> v == 0
  {
    var last := image.versions[|image.versions| - 1].version;
    if image.checksum == "" then (last + 1) % U64_MOD else last
  }

  function FormatPath(image: ImageModel): string
    requires |image.versions| > 0
  {
    image.imagePath + "/" + Text.Decimal(FormatVersion(image)) + ".img"
  }

  /**
   * FormatImage: ext4 runs "mkfs.ext4 <path>", fat32 runs a program named
   * "mkfs.fat -F 32" (one name, with the spaces in it), raw stops, and any
   * other file system leaves the command nil. `runFails` says whether Run
   * reports an error.
   */
  function FormatImage(image: ImageModel, runFails: bool): (r: FormatOutcome)
    requires |image.versions| > 0
    ensures image.filesystem == FS_RAW <==> r.NotFormatted?
    ensures image.filesystem !in {FS_EXT4, FS_FAT32, FS_RAW} <==> r.NilCommand?
    ensures image.filesystem == FS_EXT4 ==> r.cmd == Command("mkfs.ext4", [FormatPath(image)])
    ensures image.filesystem == FS_FAT32 ==> r.cmd == Command("mkfs.fat -F 32", [FormatPath(image)])
    ensures (r.Formatted? || r.FormatFailed?) ==> (r.FormatFailed? <==> runFails)
  {
    var path := FormatPath(image);
    var cmd :=
      if image.filesystem == FS_EXT4 then Some(Command("mkfs.ext4", [path]))
      else if image.filesystem == FS_FAT32 then Some(Command("mkfs.fat -F 32", [path]))
      else None;
    if cmd.None? && image.filesystem == FS_RAW then NotFormatted
    else if cmd.None? then NilCommand
    else if runFails then FormatFailed(cmd.value)
    else Formatted(cmd.value)
  }

  // ----- CreateImageFile and BeforeCreate -----

  /** The file CreateImageFile makes: "0.img" in the image's own directory. */
  function ImageFilePath(image: ImageModel): string
  {
    image.imagePath + "/" + "0" + ".img"
  }

  /**
   * CreateImageFile(imageSize, diskpath, baseSize): the file is
   * ImagePath/0.img whatever `diskpath` says.
   */
  method CreateImageFile(image: ImageModel, fs: Files, imageSize: Uint64, diskpath: string, baseSize: Uint64, faults: FileFaults)
    returns (fs': Files, err: Option<FileError>)
    ensures faults.openFails ==> fs' == fs && err == Some(OpenError)
    ensures !faults.openFails ==> fs'.lengths.Keys == fs.lengths.Keys + {ImageFilePath(image)} && fs'.dirs == fs.dirs
    ensures !faults.openFails ==>
      forall p :: p in fs.lengths && p != ImageFilePath(image) ==> p in fs'.lengths && fs'.lengths[p] == fs.lengths[p]
    ensures err.None? ==>
      SeekOffset(ImageFileSize(imageSize, baseSize)) >= 0 &&
      fs'.lengths[ImageFilePath(image)] == Extended(fs, ImageFilePath(image), SeekOffset(ImageFileSize(imageSize, baseSize)))
    ensures !faults.openFails && !faults.writeFails && SeekOffset(ImageFileSize(imageSize, baseSize)) >= 0 ==>
      (err.None? <==> !faults.closeFails) &&
      fs'.lengths[ImageFilePath(image)] == Extended(fs, ImageFilePath(image), SeekOffset(ImageFileSize(imageSize, baseSize)))
  {
    fs', err := CreateSizedFile(fs, ImageFilePath(image), imageSize, baseSize, faults);
  }

  /**
   * ImageModel.BeforeCreate: ImagePath becomes $BAAS_DISK_PATH/<UUID>; that
   * directory is made (it fails when it exists or `mkdirFails`), and then a
   * 512 MiB 0.img in it. Each failure is only logged: the hook always
   * returns nil.
   */
  method BeforeCreate(image: ImageModel, diskPath: string, fs: Files, mkdirFails: bool, faults: FileFaults)
    returns (image': ImageModel, fs': Files, ret: Option<string>)
    ensures image' == image.(imagePath := diskPath + "/" + image.uuid)
    ensures ret.None?
    ensures image'.imagePath in fs.dirs || mkdirFails ==> fs' == fs
    ensures image'.imagePath !in fs.dirs && !mkdirFails ==>
      fs'.dirs == fs.dirs + {image'.imagePath} &&
      (!faults.openFails ==> fs'.lengths.Keys == fs.lengths.Keys + {image'.imagePath + "/0.img"})
    ensures faults.openFails ==> fs'.lengths == fs.lengths
    ensures forall p :: p in fs.lengths && p != image'.imagePath + "/0.img" ==> p in fs'.lengths && fs'.lengths[p] == fs.lengths[p]
    ensures
      image'.imagePath !in fs.dirs && !mkdirFails && image'.imagePath + "/0.img" !in fs.lengths &&
      !faults.openFails && !faults.writeFails
      ==> fs'.lengths[image'.imagePath + "/0.img"] == 512 * 1024 * 1024
  {
    image' := image.(imagePath := diskPath + "/" + image.uuid);
    if image'.imagePath in fs.dirs || mkdirFails {
      return image', fs, None;
    }
    fs' := fs.(dirs := fs.dirs + {image'.imagePath});
    var err;
    assert ImageFilePath(image') == image'.imagePath + "/0.img";
    ghost var made := fs';
    fs', err := CreateImageFile(image', fs', IMAGE_FILE_SIZE, diskPath, SIZE_MEGABYTE, faults);
    if image'.imagePath + "/0.img" !in fs.lengths {
      BeforeCreateFileSize(made, image'.imagePath + "/0.img");
    }
    return image', fs', None;
  }

  /** The image file BeforeCreate makes is 512 MiB long when nothing fails. */
  lemma BeforeCreateFileSize(fs: Files, path: string)
    requires path !in fs.lengths
    ensures Extended(fs, path, SeekOffset(ImageFileSize(IMAGE_FILE_SIZE, SIZE_MEGABYTE))) == 512 * 1024 * 1024
  {
    SizedFileLength(fs, path, IMAGE_FILE_SIZE, SIZE_MEGABYTE);
  }

  // ----- MachineImageModel -----

  datatype MachineImageModel = MachineImageModel(image: ImageModel, machineMac: string, size: Uint64)

  /**
   * CreateMachineImageModel(mac): an ext4 machine image called after the MAC
   * address, owned by "System", with the placeholder checksum, no versions
   * and a 128 MiB size. The UUID is generated by the source and is a
   * parameter here; the error is always nil.
   */
  function CreateMachineImageModel(mac: string, uuid: string, diskPath: string): (r: MachineImageModel)
    ensures r.image.name == mac && r.machineMac == mac && r.image.uuid == uuid
    ensures r.image.compression == COMPRESSION_NONE && r.image.kind == "machine" && r.image.username == "System"
    ensures r.image.checksum == "DEADBEEF" && r.image.imagePath == diskPath && r.image.filesystem == FS_EXT4
    ensures r.size == 128 && r.image.versions == [] && r.image.fileType == DISK_TYPE_RAW
  {
    MachineImageModel(
      ImageModel(mac, [], uuid, "System", COMPRESSION_NONE, DISK_TYPE_RAW, "machine", "DEADBEEF", diskPath, FS_EXT4),
      mac, 128)
  }

  /**
   * MachineImageModel.BeforeCreate, as far as the directory: ImagePath is
   * set to $BAAS_DISK_PATH itself and $BAAS_DISK_PATH/<UUID> is made; a
   * failing mkdir is logged and the hook returns nil.
   */
  method MachineBeforeCreate(m: MachineImageModel, diskPath: string, fs: Files, mkdirFails: bool)
    returns (m': MachineImageModel, fs': Files, ret: Option<string>)
    ensures m' == m.(image := m.image.(imagePath := diskPath))
    ensures ret.None?
    ensures var dir := diskPath + "/" + m.image.uuid;
      fs' == if dir in fs.dirs || mkdirFails then fs else fs.(dirs := fs.dirs + {dir})
  {
    m' := m.(image := m.image.(imagePath := diskPath));
    var dir := diskPath + "/" + m'.image.uuid;
    if dir in fs.dirs || mkdirFails {
      return m', fs, None;
    }
    return m', fs.(dirs := fs.dirs + {dir}), None;
  }
}
