/**
 * The disk description the older management-OS path works on (pkg/model/disk.go):
 * a disk image names its type, how it is transferred and how it is
 * compressed, each a Go int enum, and the device it is written to.
 */
module DiskModel {
  const DISK_TYPE_RAW: int := 0
  const TRANSFER_HTTP: int := 0
  const COMPRESSION_NONE: int := 0
  const COMPRESSION_ZSTD: int := 1

  datatype DiskImage = DiskImage(diskType: int, transfer: int, compression: int, location: string)
}
