# baas in Dafny

A model of the core of baas, a boot-as-a-service system, with proofs about that model. On the machine side it covers:

- the C PID-1 shim that fetches a boot setup, downloads its images and attaches them to loop devices;
- the loopback helper and the loop-device test program;
- the management OS that writes images onto partitions and reads them back.

On the server side it covers the control server's decisions:

- route authorisation and the image and user handlers;
- DHCP architecture detection;
- the in-memory stores and the boot-configuration endpoints;
- the shared Go packages for compression, block copies, image models, MAC addresses and the IPMI boot-flags codec.

Each source file of the core has its own module, with the same name in CamelCase (`baas_init.dfy` is `BaasInit`, and so on). Five shared modules carry what the C and Go code relies on:

- `Kernel` is the slice of Linux the C code calls, held as a value. It has nodes, descriptors, the loop table, directories, mounts, the child table and the ordered record of calls with their return values. Every C procedure is a method that threads this value through its calls in source order. `Kernel.Ran` states the order: on success exactly the call script, and on failure a prefix, the failing call and the exit.
- `Json` is a cJSON document as the shim reads it.
- `Http` is the part of net/http and the gorilla session the handlers look at. A response is the sequence of writes a handler makes.
- `Text` holds ASCII case mapping, the numerals `fmt` prints and `strconv.ParseUint`.
- `Wrappers` holds Option and Result.

Go I/O (downloads, devices, the clock, the fresh UUID, a command that fails) comes in as parameters or environment records. An object the source updates in place is a class whose methods state its whole new state. Examples are the partition cache, the curl handle, an image setup, the IPMI serialise buffer, copy readers and writers, the two in-memory stores, MacAddress and ProgressReporter.

## Model

| member | source | states |
|---|---|---|
| BaasJson.GetString | utils/baas-init/baas-json.c:31-39 | the member's text exactly when the key names a string member, "" in every other case (missing key, other kind, no object) |
| BaasJson.GetInt | utils/baas-init/baas-json.c:41-50 | a non-zero result only for a number member, then its value saturated to C `int` range; missing, non-number or zero all give 0 |
| BaasJson.ParseImage | utils/baas-init/baas-json.c:52-62 | the seven string fields come from the exact-case keys "Name", "UUID", "DiskCompressionStrategy", "ImageFileType", "type", "Checksum", "Filesystem"; version and username are left unwritten |
| BaasJson.ParseImageFrozen | utils/baas-init/baas-json.c:64-75 | an entry decodes exactly when it has an "Update" member (otherwise the NULL dereference is a fault); the version is then written and the username still is not |
| BaasJson.ParseSetup | utils/baas-init/baas-json.c:76-95 | succeeds iff every "Images" element decodes; on success images_len is the array size and entry i is the decode of element i, with the three setup strings from "Name", "Username", "UUID"; on failure the fault names the first element without "Update" |
| BaasJson.EncodeFrozenList | pkg/model/images/setup.go:13-23 | the encoding of a list of frozen images is the element-wise encoding, same length and order |
| BaasJson.DecodeEncodedImage | utils/baas-init/baas-json.c:52-62 | decoding the control server's encoding of an ImageModel gives back every string field except the type, which reads as "" because the shim asks for "type" and the server writes "Type" |
| BaasJson.EncodedLeadingStrings | utils/baas-init/baas-json.c:54-56 | name, UUID and compression strategy read back from an encoded image |
| BaasJson.EncodedTrailingStrings | utils/baas-init/baas-json.c:57-60 | file type, checksum and file system read back; "type" is absent from an encoded image |
| BaasJson.DecodeEncodedFrozen | utils/baas-init/baas-json.c:64-75 | an encoded frozen image decodes to its image, the nested version saturated to `int`, and its update flag |
| BaasJson.FlatVersionReadsZero | utils/baas-init/baas-json.c:68-69 | a bare numeric "Version" member on the entry is read as version 0, because the decoder looks inside the "Version" member for another "Version" |
| BaasJson.DecodeEncodedSetup | utils/baas-init/baas-json.c:76-95 | an encoded setup's "Images" children are the encoded entries in order, each decodes to its source entry, and the three setup strings read back |
| BaasJson.NullDocumentIsEmptySetup | utils/baas-init/baas-json.c:78-93 | with no document the decoder sees no entries and "" for name, username and uuid |
| BaasJson.FreeSetupReleases | utils/baas-init/baas-json.c:106-109 | free_baas_setup releases no entry block and no image block |
| BaasJson.FreeFrozenThenSetupReleasesAll | utils/baas-init/baas-json.c:101-109 | freeing every entry with free_baas_image_frozen and then the setup with free_baas_setup releases exactly the blocks the decoder allocated, each entry's image and entry block included |
| BaasJson.FreeImageLeaksFrozen | utils/baas-init/baas-json.c:97-109 | freeing every entry with free_baas_image instead, and then the setup, leaves exactly every entry block allocated |
| BaasJson.FreedImagesAreImages | utils/baas-init/baas-json.c:97-99 | free_baas_image on the first n entries releases only their image blocks |
| BaasJson.FreeSetupLeaksEntries | utils/baas-init/baas-json.c:106-109 | after freeing a setup, exactly both blocks of every entry stay allocated |
| Json.ClampInt | utils/baas-init/baas-json.c:44-45 | cJSON's `valueint`: the number saturated to `int` range, unchanged inside it |
| BaasInit.GetLoopDevice | utils/baas-init/baas-init.c:36-53 | the calls are exactly open("/dev/loop-control", O_RDWR), LOOP_CTL_GET_FREE and close of that descriptor; it succeeds iff both calls succeed, and then the name is "/dev/loop<N>" for the free device N, which now exists, and the control descriptor is closed again; any failure stops the process with EXIT_FAILURE after the failing call |
| BaasInit.Living | utils/baas-init/baas-init.c:183-191 | the children still running are a sub-sequence of the table with no terminated child |
| BaasInit.LivingRemoveZombie | utils/baas-init/baas-init.c:183-191 | reaping one terminated child leaves the running children as they were and one zombie fewer |
| BaasInit.LivingWithoutZombies | utils/baas-init/baas-init.c:183-191 | a table with no terminated child is its own running part and holds no zombie |
| BaasInit.Waits | utils/baas-init/baas-init.c:191 | n repetitions of waitpid(-1, WNOHANG) |
| BaasInit.WaitAny | utils/baas-init/baas-init.c:183 | one non-blocking wait: a positive result removes exactly one zombie, otherwise the table is unchanged and has no zombie; the running children and every other part of the state stay the same |
| BaasInit.DrainZombies | utils/baas-init/baas-init.c:183-185 | the drain loop leaves exactly the running children, in order, calls waitpid(-1, WNOHANG) once per zombie plus once more, and changes nothing else |
| BaasInit.WaitsNext | utils/baas-init/baas-init.c:191 | one more wait extends the wait sequence by one |
| BaasInit.ZombieFree | utils/baas-init/baas-init.c:191-192 | a table with no zombie is all running children |
| BaasInit.SigReap | utils/baas-init/baas-init.c:190-194 | sigreap reaps every zombie (one wait per zombie and a final one), then arms alarm(50); the children left are the running ones and nothing else changes |
| BaasInit.SigChild | utils/baas-init/baas-init.c:179-186 | sigchild reaps every zombie with the same waits and sets no alarm |
| BaasInit.SigTerminate | utils/baas-init/baas-init.c:174-177 | sigterminate's one system call is _exit(0); its puts("SIGTERM called") is output and is not recorded |
| BaasInit.ChildIndexOfNewest | utils/baas-init/baas-init.c:58-69 | the child just forked, whose pid is larger than every other, is found by its pid at the end of the table |
| BaasInit.ChildIndexFrom | utils/baas-init/baas-init.c:69 | some child carrying the pid is found, no later than any given position holding it |
| BaasInit.Spawn | utils/baas-init/baas-init.c:57-70 | the parent forks and waits for exactly that pid; it goes on iff the fork succeeds (else EXIT_FAILURE), and afterwards only the pid counter and the call trace differ |
| BaasInit.WriteLog | utils/baas-init/baas-init.c:161-166 | the log opens iff fopen("/baas.log", "w") can succeed; if not, that failing call is the only one; otherwise the calls are open, one fputs of the greeting and close, and the descriptor is released |
| BaasInit.InitMain | utils/baas-init/baas-init.c:136-172 | a PID other than 1 returns 1 with no call at all; PID 1 issues chdir("/") twice, then either returns 1 after the failed fopen, or writes the log and calls execve("/sbin/init-orig", {"init"}); the image is replaced iff execve succeeds, and when it fails after the log opened main returns 0 |
| BaasInit.ChdirTwice | utils/baas-init/baas-init.c:141-160 | the two chdir("/") calls, whose results are ignored |
| BaasInit.LogAndExec | utils/baas-init/baas-init.c:160-172 | after the chdirs: returns 1 after a failed fopen, otherwise writes the log and execs the original init; the image is replaced iff the log opened and execve succeeded, and a failed execve returns 0 |
| BaasInit.ImageUris | utils/baas-init/baas-init.c:92-95 | one URI per entry, in entry order |
| BaasInit.ImageUrisIndex | utils/baas-init/baas-init.c:94-95 | URI i is "http://192.168.2.33:4848/image/<uuid>/<version>" of entry i's image |
| BaasInit.FetchedUrisAppend | utils/baas-init/baas-init.c:96-98 | the URIs fetched by two runs in a row are the first run's followed by the second's |
| BaasInit.FetchedUrisNone | utils/baas-init/baas-init.c:96-98 | a run with no transfer fetches nothing |
| BaasInit.FetchedUrisPrefix | utils/baas-init/baas-init.c:96-98 | a prefix of a run fetches a prefix of its URIs |
| BaasInit.EntryScriptFetches | utils/baas-init/baas-init.c:93-128 | the calls of one loop iteration fetch exactly one URI, the entry's own |
| BaasInit.Download | utils/baas-init/baas-init.c:96-99 | the calls are fopen of /test.img, the transfer into it and fclose; a failed fopen crashes the process (the transfer gets a NULL stream) and is the only way it stops; the request that transfer still makes before the crash is not recorded; on success only the file node and the descriptor counter differ |
| BaasInit.AttachFile | utils/baas-init/baas-init.c:101-114 | open the loop device read-write, open /test.img read-write, LOOP_SET_FD, each failure exiting with EXIT_FAILURE; an already bound device always exits; on success the device is backed by /test.img with its flags reset to 0, as LOOP_SET_FD does for a writable file, and both descriptors are open |
| BaasInit.SetPartScan | utils/baas-init/baas-init.c:116-128 | LOOP_GET_STATUS, then LOOP_SET_STATUS with the flags overwritten to LO_FLAGS_PARTSCAN alone whatever was read, of which the kernel takes only the settable bits: PARTSCAN is set, AUTOCLEAR cleared and every other bit kept; then close of both descriptors, each releasing what close releases; a descriptor not bound to a device exits |
| BaasInit.Bind | utils/baas-init/baas-init.c:101-128 | the attach sequence open loop, open file, SET_FD, GET_STATUS, SET_STATUS, close, close in that order and fail-fast; on success only the chosen device (now backed by /test.img with exactly LO_FLAGS_PARTSCAN) differs and no descriptor stays open |
| BaasInit.AttachEntry | utils/baas-init/baas-init.c:93-128 | one iteration runs download, get_loop_device and the attach sequence in that order and stops the process at the first failure (a crash exactly when /test.img cannot be opened for writing); on success the open descriptors are as before and exactly the free device is bound |
| BaasInit.TakeAndBind | utils/baas-init/baas-init.c:101-128 | get_loop_device followed by the attach sequence on the device it names, fail-fast; on success the descriptors are as before and exactly the free device is bound |
| BaasInit.BoundCountUpdate | utils/baas-init/baas-init.c:112 | binding a free device raises the number of bound devices by one |
| BaasInit.GrowToBound | utils/baas-init/baas-init.c:43 | LOOP_CTL_GET_FREE creating a device binds nothing |
| BaasInit.AttachGrows | utils/baas-init/baas-init.c:101-128 | one more iteration keeps earlier bindings, binds one more device and binds it to /test.img with only partition scanning |
| BaasInit.FetchedAfterEntry | utils/baas-init/baas-init.c:92-129 | a whole iteration adds its URI to what was fetched; one that stopped early adds at most that URI |
| BaasInit.EntryStep | utils/baas-init/baas-init.c:92-129 | the same for the process's whole run: fetched URIs extend by the entry's URI when it completes, and a stopped run made at least one call |
| BaasInit.AttachNext | utils/baas-init/baas-init.c:92-129 | iteration i, after the first i entries were attached, fetches at most entry i's URI next; when it completes, exactly the first i+1 URIs were fetched, the descriptors are as at the start and i+1 devices were bound |
| BaasInit.AttachEntries | utils/baas-init/baas-init.c:92-129 | the loop visits the entries strictly in order and stops at the first failure (EXIT_FAILURE or crash); what it fetched is always a prefix of the entries' URIs; when it completes it fetched exactly every entry's URI, left no descriptor open, kept every earlier binding and bound one new device per entry to /test.img with exactly LO_FLAGS_PARTSCAN |
| BaasInit.AttachStart | utils/baas-init/baas-init.c:92 | before the first iteration nothing was fetched and no device was bound |
| BaasInit.FetchedWithin | utils/baas-init/baas-init.c:92-99 | a prefix of the first i entries' URIs is a prefix of all of them |
| BaasInit.ImageUrisPrefix | utils/baas-init/baas-init.c:92-95 | the URIs of the first i entries are the first i of all the entries' URIs |
| BaasInit.SetupUris | utils/baas-init/baas-init.c:91-95 | the URIs of a decoded setup's entries are, one per document element and in order, those of each element's decoded image |
| BaasInit.AfterPrelude | utils/baas-init/baas-init.c:80-91 | the sleep and the manifest fetch come first in the child's run and fetch no image |
| BaasInit.StepNoFetch | utils/baas-init/baas-init.c:133 | the final _exit fetches no image |
| BaasInit.ManifestChild | utils/baas-init/baas-init.c:90-133 | a manifest with an entry lacking "Update" crashes the child at once; exiting with 0 means the child fetched exactly one image per document entry, in order, each from its own UUID and version |
| BaasInit.ImageChild | utils/baas-init/baas-init.c:77-133 | the child first sleeps ten seconds and fetches "192.168.2.33:9090/disk.json", then behaves as the manifest step: a crash on an undecodable entry, and exit 0 only after fetching exactly the entries' images in order |
| BaasInit.GetImage | utils/baas-init/baas-init.c:72-76 | the parent's only call is fork; a failure exits, a success adds one running child and returns |
| LoopbackMount.GetLoopDevice | utils/loopback_mount.c:30-46 | open("/dev/loop-control") then LOOP_CTL_GET_FREE, each failure exiting with EXIT_FAILURE; on success the name is "/dev/loop<N>" of the free device, which now exists, and the control descriptor stays open |
| LoopbackMount.ScanFlags | utils/loopback_mount.c:59 | the scan bit is set and every other bit of the flags read is kept |
| LoopbackMount.ScanFlagsSettable | utils/loopback_mount.c:57-61 | the flags read with PARTSCAN added are taken whole by LOOP_SET_STATUS, whose settable bits are only AUTOCLEAR and PARTSCAN |
| LoopbackMount.SetLoop | utils/loopback_mount.c:48-64 | LOOP_SET_FD, LOOP_GET_STATUS, LOOP_SET_STATUS in that order, each failure exiting; a pair that cannot be bound always exits; on success the device is backed by the file and its flags are the ones read with LO_FLAGS_PARTSCAN added, all of which the kernel takes, and nothing else changes |
| LoopbackMount.MountImageFile | utils/loopback_mount.c:66-75 | open the file read-only, set_loop, close it; on success the flags read are exactly LO_FLAGS_READ_ONLY (LOOP_SET_FD on a read-only file), the device is backed by the file with LO_FLAGS_READ_ONLY and LO_FLAGS_PARTSCAN, and the backing descriptor is closed again without unbinding it |
| LoopbackMount.ChildProbes | utils/loopback_mount.c:101-112 | one probe per partition, n in all |
| LoopbackMount.ChildProbesIndex | utils/loopback_mount.c:104-108 | partition i, counted from 0, is probed at the node "<loopname>p<i+1>" |
| LoopbackMount.Unprobed | utils/loopback_mount.c:96-99 | the result records npartitions and holds that many calloc-zeroed entries, with no device name |
| LoopbackMount.UnprobedRefused | utils/loopback_mount.c:96-170 | the list get_partition_info returns keeps calloc's NULL types, so under either naming the first mount is refused and mount_partitions never gets past its first round |
| LoopbackMount.ProbeChildren | utils/loopback_mount.c:101-125 | every partition node is probed once, in order, whether or not earlier probes failed, and nothing but the call trace changes |
| LoopbackMount.GetPartitionInfo | utils/loopback_mount.c:77-130 | a failing blkid_probe_set_device exits; otherwise the process goes on and nothing changes but the trace; a partition list exists iff blkid reports a count, and then the result holds that count of zeroed entries, because probe results go into a local copy |
| LoopbackMount.Probed | utils/loopback_mount.c:96-120 | the corrected list records npartitions and holds one entry per partition: what blkid reports for node i + 1 when its probe finds the node, and zeroes when the probe is skipped |
| LoopbackMount.ProbeChildrenIntended | utils/loopback_mount.c:101-125 | the corrected scan probes the same nodes in the same order as the original and changes nothing but the trace, and each probe that finds its node writes blkid's UUID, LABEL and TYPE into that node's entry of the list |
| LoopbackMount.SettleAndProbe | utils/loopback_mount.c:94-125 | the 5 ms sleep comes before the first partition node is probed, and the corrected scan then fills the list |
| LoopbackMount.ProbeTable | utils/loopback_mount.c:78-88 | a failing blkid_probe_set_device exits; otherwise the partition count is the one blkid reports for the device, -1 without a partition list |
| LoopbackMount.GetPartitionInfoIntended | utils/loopback_mount.c:77-130 | the corrected get_partition_info makes the same calls, exits in the same cases and returns NULL in the same case as the original, but its list carries what blkid reported for each partition node it could probe |
| LoopbackMount.ProbedTypesMount | utils/loopback_mount.c:117-174 | in the corrected list every probed node's entry has the type blkid found, so when each node was probed and has a type, the intended mount rounds succeed exactly when each round's call works, its node exists and its directory is free |
| LoopbackMount.FreshDeviceBinds | utils/loopback_mount.c:139-146 | the device get_loop_device hands out is free, so the read-only image can be bound to it |
| LoopbackMount.AttachImage | utils/loopback_mount.c:139-146 | get_loop_device, open of the device read-write (a failure exits) and mount_image_file, fail-fast; on success the free device is bound read-only with partition scanning and the control and loop descriptors are open |
| LoopbackMount.OpenAndBind | utils/loopback_mount.c:141-146 | after get_loop_device: open the named device, then mount_image_file; on success the attached state, with the loop descriptor next after the control descriptor |
| LoopbackMount.BindOpened | utils/loopback_mount.c:146 | mount_image_file on the device just opened gives the attached state |
| LoopbackMount.AttachedCount | utils/loopback_mount.c:147 | blkid reads the partition count of the image now behind the device |
| LoopbackMount.ProbeAndClose | utils/loopback_mount.c:147-155 | get_partition_info then close of the loop descriptor, which happens whether or not a list was found and releases the descriptor as close(2) does; the result, when there is one, holds the count of zeroed entries and names the device |
| LoopbackMount.GetImageInfo | utils/loopback_mount.c:138-156 | the whole sequence, fail-fast; when the process goes on, a result exists iff blkid found a partition list and then holds the count, zeroed entries and the device name "/dev/loop<N>"; the loop descriptor is closed either way and the control descriptor stays open |
| LoopbackMount.NodeIsNoDir | utils/loopback_mount.c:164-168 | no partition node "<device>p<i>" is ever a directory "/mnt/partition<j>" |
| LoopbackMount.DirsDistinct | utils/loopback_mount.c:164 | distinct rounds make distinct directories |
| LoopbackMount.NodesDistinct | utils/loopback_mount.c:168 | distinct rounds name distinct partition nodes |
| LoopbackMount.RoundsScript | utils/loopback_mount.c:161-174 | the first n rounds issue 2n calls, mkdir then mount per round |
| LoopbackMount.TargetsWorkAll | utils/loopback_mount.c:170-173 | the first n mounts all work iff each of them does |
| LoopbackMount.TargetsWorkStop | utils/loopback_mount.c:171-173 | one failing mount makes every longer run of rounds fail |
| LoopbackMount.RoundsMember | utils/loopback_mount.c:165 | "/mnt/partition<i>" has been made iff i is among the rounds run and its mkdir worked |
| LoopbackMount.RoundsOnlyDirs | utils/loopback_mount.c:165 | the rounds make nothing but partition directories |
| LoopbackMount.NodeNotMade | utils/loopback_mount.c:165-168 | no round makes a partition node |
| LoopbackMount.TargetsDistinct | utils/loopback_mount.c:164-170 | distinct rounds mount on distinct targets, under either naming |
| LoopbackMount.TargetMade | utils/loopback_mount.c:164-170 | a round's mount target was made by the rounds so far only under the intended naming |
| LoopbackMount.TargetNotMountedYet | utils/loopback_mount.c:170 | no earlier round mounted on a later round's target |
| LoopbackMount.AsWrittenMissesDirs | utils/loopback_mount.c:164-170 | as written, what is mounted on every "/mnt/partition<j>" stays as it was |
| LoopbackMount.IntendedMountsDirs | utils/loopback_mount.c:105-170 | as intended, "/mnt/partition<i>" holds the node of partition i + 1, the one blkid probed for entry i, with entry i's type, the fixed flags and the ext4 option string |
| LoopbackMount.RoundsScriptPrefix | utils/loopback_mount.c:161 | fewer rounds issue a prefix of the calls of more rounds |
| LoopbackMount.RoundsStopped | utils/loopback_mount.c:171-173 | a run stopped within the first rounds is a stopped run of all of them |
| LoopbackMount.MountRoundCall | utils/loopback_mount.c:165-173 | mkdir with its result ignored, then mount; the process goes on iff the mount works, and a failed mount exits with EXIT_FAILURE |
| LoopbackMount.RoundWorksIff | utils/loopback_mount.c:170-171 | after the first i rounds, round i's mount works exactly when the starting state says it will |
| LoopbackMount.RoundAdvance | utils/loopback_mount.c:161-174 | one round's state change leads from the state after i rounds to the state after i+1 |
| LoopbackMount.RoundStep | utils/loopback_mount.c:161-174 | round i either leads to the state after i+1 rounds or ends the run of all n, exactly when its mount fails |
| LoopbackMount.RoundAfterWorks | utils/loopback_mount.c:161-174 | a round whose mount works extends the run to i+1 rounds |
| LoopbackMount.RoundAfterStops | utils/loopback_mount.c:171-173 | a round whose mount fails ends the run of all n rounds |
| LoopbackMount.RoundsStart | utils/loopback_mount.c:161 | before the first round nothing has happened |
| LoopbackMount.MountRounds | utils/loopback_mount.c:158-175 | the rounds in order, fail-fast; the process goes on iff every mount works, and then exactly the working directories were added and each round's target holds its entry |
| LoopbackMount.MountPartitions | utils/loopback_mount.c:158-175 | as written: succeeds iff the uninitialised source names an existing node, every partition has a type, and every partition node "<device>p<i>" (0-based) is already an unmounted directory; then each node has that source mounted on it and nothing mounted on any "/mnt/partition<j>" has changed |
| LoopbackMount.MountPartitionsIntended | utils/loopback_mount.c:105-175 | as intended: succeeds iff, for each i, the node "<device>p<i+1>" exists, partition i has a type and "/mnt/partition<i>" exists or is made and is free; then that directory holds that node with partition i's type, flags NOATIME/SILENT/NODEV/NOEXEC/NOSUID and the ext4 option string |
| LoopbackMount.UmountScript | utils/loopback_mount.c:178-185 | 2n calls, umount2 then rmdir per round |
| LoopbackMount.RemovedMember | utils/loopback_mount.c:183-184 | "/mnt/partition<i>" is removed iff its round ran and rmdir could remove it |
| LoopbackMount.RemovedOnlyDirs | utils/loopback_mount.c:184 | umount_partitions removes nothing but partition directories |
| LoopbackMount.UmountAdvance | utils/loopback_mount.c:183-184 | one round's two calls lead from the state after i rounds to the one after i+1 |
| LoopbackMount.UmountStep | utils/loopback_mount.c:179-184 | round i of umount_partitions, whose results are ignored |
| LoopbackMount.UmountPartitions | utils/loopback_mount.c:177-186 | umount2(MNT_FORCE) and rmdir on "/mnt/partition<i>" for every i in order; it never stops the process, and afterwards exactly the unmountable partition mounts and removable directories are gone |
| LoopbackMount.UmountClears | utils/loopback_mount.c:177-186 | when no call fails, no "/mnt/partition<i>" is left mounted or present |
| LoopbackMount.UmountAgain | utils/loopback_mount.c:177-186 | a second call with nothing left changes nothing but the call record |
| LoopTest.TestFlagsAllButReadOnly | utils/baas-init/test.c:57 | the flags written are 0xFFFFFFFE: every bit is set, PARTSCAN, DIRECT_IO and AUTOCLEAR among them, and READ_ONLY is clear |
| LoopTest.TestFlagsTaken | utils/baas-init/test.c:57 | of 0xFFFFFFFE, LOOP_SET_STATUS sets AUTOCLEAR and PARTSCAN and keeps every other bit as it was, DIRECT_IO and READ_ONLY among them |
| LoopTest.SetTestFlags | utils/baas-init/test.c:52-64 | LOOP_GET_STATUS, then LOOP_SET_STATUS with those flags whatever was read, each failure exiting, then close of the file and the device; the kernel takes only AUTOCLEAR and PARTSCAN of them, and each close releases what close(2) releases |
| LoopTest.AttachTest | utils/baas-init/test.c:37-64 | open the device read-write, open /test.img read-write, SET_FD, GET_STATUS, SET_STATUS, close, close, fail-fast; an already bound device exits; on success only that device changed: with AUTOCLEAR now set, the last close detaches it unless another descriptor or device still holds it, and otherwise it is backed by /test.img with exactly AUTOCLEAR and PARTSCAN |
| LoopTest.LastCloseClears | utils/baas-init/test.c:63-64 | closing the device descriptor clears the device exactly when nothing else still holds the device |
| LoopTest.TestMain | utils/baas-init/test.c:14-65 | get_loop_device (which closes the control descriptor) followed by the attach sequence, fail-fast with EXIT_FAILURE; on success no descriptor is left open and the free device is detached again by autoclear, or, when something else holds it, bound to /test.img with AUTOCLEAR and PARTSCAN |
| LoopTest.HeldGrow | utils/baas-init/test.c:23-31 | creating the free device changes nothing about what holds a device |
| Network.RealSize | utils/baas-init/network.c:16 | size * nmemb in 64-bit size_t arithmetic: exact when it fits, wrapped otherwise |
| Network.Overwrite | utils/baas-init/network.c:17 | the chunk replaces the first bytes of the buffer and the rest is unchanged |
| Network.WriteBuffer | utils/baas-init/network.c:15-19 | returns realsize and leaves the buffer with the chunk at offset 0 and every later byte unchanged; the caller must ensure the chunk fits, since there is no capacity check |
| Network.OverwriteHides | utils/baas-init/network.c:17 | a later chunk at least as long hides the earlier one completely: repeated callbacks do not append |
| Network.OverwriteShorter | utils/baas-init/network.c:17 | a shorter later chunk leaves the tail of the earlier one after it |
| Network.FWrite | utils/baas-init/network.c:22 | fwrite appends what fits, counts only whole items, and returns nmemb when everything fits |
| Network.WholeItems | utils/baas-init/network.c:22 | the whole items among the bytes written: at most nmemb, all of them when every byte was written |
| Network.WriteData | utils/baas-init/network.c:21-24 | the callback's result is fwrite's item count for the stream |
| Network.Handle.constructor | utils/baas-init/network.c:26-32 | network_init: a handle with nothing set |
| Network.Handle.AddStandardHeaders | utils/baas-init/network.c:34-39 | installs exactly the two standard headers, in order |
| Network.Handle.SetUri | utils/baas-init/network.c:48-50 | installs the URL |
| Network.Handle.Execute | utils/baas-init/network.c:41-46 | the headers first, then the callback, then its target, then the transfer |
| Network.StandardHeaders | utils/baas-init/network.c:35-37 | exactly ["Origin: http://localhost:9090", "Type: system"] |
| Network.LastTransfer | utils/baas-init/network.c:45 | a transfer took place iff the record holds a perform |
| Network.ExecuteTransfer | utils/baas-init/network.c:41-46 | whatever was done before, network_execute's transfer uses the standard headers, the given callback and target and the URL set last |
| Network.SetUriThenExecute | utils/baas-init/network.c:41-50 | the URL network_set_uri installs is the one the next transfer uses |
| IpmiBootDev.RequestRoundTrip | pkg/ipmi/bootdev.go:118-129 | the three request bytes read back as the request's parameter, set and block selectors, whatever follows them |
| IpmiBootDev.SerializeBuffer.constructor | pkg/ipmi/bootdev.go:118 | a serialize buffer holding the given bytes |
| IpmiBootDev.SerializeBuffer.PrependBytes | pkg/ipmi/bootdev.go:119 | n bytes go in front and the old contents follow them unchanged |
| IpmiBootDev.SerializeBuffer.SetByte | pkg/ipmi/bootdev.go:124-126 | one byte changes and no other |
| IpmiBootDev.SerializeTo | pkg/ipmi/bootdev.go:118-129 | the buffer afterwards is exactly [ParameterSelector, SetSelector, BlockSelector] followed by its old contents |
| IpmiBootDev.GetBootDevRsp.constructor | pkg/ipmi/bootdev.go:19-21 | a zero-valued response layer, apart from the boot flags it is given |
| IpmiBootDev.GetBootDevRsp.DecodeFromBytes | pkg/ipmi/bootdev.go:155-210 | the outcome and the new fields are those of the decode function applied to the old fields and the input; the lemmas below state what that decode does |
| IpmiBootDev.ShortInput | pkg/ipmi/bootdev.go:156-159 | input shorter than three bytes is truncated and no field changes |
| IpmiBootDev.HeaderFields | pkg/ipmi/bootdev.go:167-169 | ParameterVersion is data[0], ParameterValid holds iff bit 7 of data[1] is clear, ParameterSelector is data[1] & 0x7F |
| IpmiBootDev.PanicsIff | pkg/ipmi/bootdev.go:156-200 | decoding panics on an index exactly when the selector is 5 and there are 3 to 6 bytes; it is truncated exactly when there are fewer than 3 |
| IpmiBootDev.ContentsAndPayload | pkg/ipmi/bootdev.go:206-207 | after a decode, Contents is data[0:3] and Payload is data[3:], so together they are the input |
| IpmiBootDev.OtherSelector | pkg/ipmi/bootdev.go:202-209 | any selector other than 5 decodes, with the boot flags untouched |
| IpmiBootDev.BootFlagBits | pkg/ipmi/bootdev.go:174-200 | for selector 5 with seven bytes: Valid, Persistent and UEFI are bits 7, 6, 5 of data[2]; ClearCMOS, ScreenBlank, LockOutResetButton are bits 7, 1, 0 of data[3] and BootDevice is bits 5-2 (below 16); the data[4] flags are bits 7, 4, 3, 2 with FirmwareVerbosity bits 6-5 and ConsoleRedirectionControl bits 1-0; BIOSSharedModeOverride is bit 3 and BIOSMuxControlOverride bits 1-0 of data[5]; DeviceInstanceSelector is data[6] & 0x1F; LockKeyboard keeps its old value |
| IpmiBootDev.EncodeBootFlags | pkg/ipmi/bootdev.go:75-102 | five data bytes laid out as in table 28-14 of the IPMI v2.0 specification |
| IpmiBootDev.Data1RoundTrip | pkg/ipmi/bootdev.go:177-179 | data 1 decodes to the encoded Valid, Persistent and UEFI flags |
| IpmiBootDev.Data2RoundTrip | pkg/ipmi/bootdev.go:182-185 | data 2 decodes to the encoded ClearCMOS, BootDevice, ScreenBlank and LockOutResetButton |
| IpmiBootDev.Data3RoundTrip | pkg/ipmi/bootdev.go:188-193 | data 3 decodes to the encoded power, verbosity, trap, bypass, sleep and console fields |
| IpmiBootDev.BootFlagsRoundTrip | pkg/ipmi/bootdev.go:155-210 | a boot-flags response built from in-range flags decodes to those flags, except LockKeyboard, which the decoder never reads |
| FsCopy.Accepted | pkg/fs/fs.go:41 | a write takes at most the bytes offered, and all of them when nothing fails |
| FsCopy.RoundOf | pkg/fs/fs.go:33-51 | one pass: a read error other than EOF or ErrUnexpectedEOF stops with "error reading" before anything of that read is written; a write error stops as "error writing"; a short write with a nil error is "partial copy"; a clean full write of an EOF read ends the copy with nil; otherwise the copy goes on, having written exactly what was read |
| FsCopy.Copy | pkg/fs/fs.go:30-52 | what the writer takes is always a prefix of all the bytes the reader returned |
| FsCopy.ScriptReader.constructor | pkg/fs/fs.go:30 | a reader with the given results still to come |
| FsCopy.ScriptReader.Read | pkg/fs/fs.go:35 | the next result's bytes go at the start of the buffer; an exhausted reader returns (0, EOF) |
| FsCopy.SinkWriter.constructor | pkg/fs/fs.go:30 | a writer holding the given bytes |
| FsCopy.SinkWriter.Write | pkg/fs/fs.go:41 | the writer appends what its next behaviour accepts and records the length offered |
| FsCopy.CopyRound | pkg/fs/fs.go:33-51 | one loop pass over the shared buffer does what the pass function says and writes at most BLOCKSIZE = 1500 bytes |
| FsCopy.CopyStream | pkg/fs/fs.go:29-52 | the result and the bytes written are those of the copy function, and no write is longer than 1500 bytes |
| FsCopy.CopyUnfold | pkg/fs/fs.go:33-51 | the copy is one pass followed by the copy of the rest |
| FsCopy.FileChunks | pkg/fs/fs.go:16-26 | the reads of an os.File fit the buffer and carry no error before the final (0, EOF) |
| FsCopy.CleanChunkStep | pkg/fs/fs.go:35-50 | a clean read to a writer that takes everything is written whole, and the copy goes on |
| FsCopy.CopyFileLast | pkg/fs/fs.go:35-50 | a file no longer than the buffer arrives whole in one read and one write, and the copy ends without error |
| FsCopy.CopyFileStep | pkg/fs/fs.go:33-51 | a file longer than the buffer is copied as its first full buffer followed by the copy of the rest |
| FsCopy.CopyFileExact | pkg/fs/fs_test.go:36-42 | a file copied to a writer that takes everything arrives byte for byte, whatever its length |
| FsCopy.CopyClean | pkg/fs/fs.go:36-50 | reads that are clean or ErrUnexpectedEOF never stop the copy, which then delivers every byte returned |
| FsCopy.ReadFailureFirst | pkg/fs/fs.go:35-38 | a failing read stops the copy with "error reading" and nothing of it written |
| FsCopy.ShortWriteIsPartial | pkg/fs/fs.go:41-44 | a short write with a nil error is "partial copy", with exactly the accepted bytes written |
| FsCopy.CopyFile | pkg/fs/fs.go:15-27 | an unopenable source or uncreatable destination returns that error and changes nothing; otherwise the destination is created (truncated) and then holds what the copy wrote, and the error is nil iff the copy succeeded |
| FsCopy.CopyFileCopies | pkg/fs/fs_test.go:71-77 | copying one file to another, at any length including 12, 1500 and 1501 bytes, succeeds and gives an exact copy |
| OffsetCopy.Accepted | management_os/programs/fs.go:39 | a write takes at most the bytes offered, all of them when nothing fails |
| OffsetCopy.WriteAtOffset | management_os/programs/fs.go:39 | WriteAt puts the bytes at the offset, keeps everything before and after, and grows the file as needed |
| OffsetCopy.Block | management_os/programs/fs.go:33 | ReadAt at offset i returns the next at most 512 bytes of the file; fewer only at the end |
| OffsetCopy.FileReaderAt.constructor | management_os/programs/fs.go:28 | a reader over the given file |
| OffsetCopy.FileReaderAt.ReadAt | management_os/programs/fs.go:33-36 | the block at the offset into the start of the buffer, EOF when it is short; a failure returns nothing |
| OffsetCopy.FileWriterAt.constructor | management_os/programs/fs.go:28 | a writer holding the given bytes |
| OffsetCopy.FileWriterAt.WriteAt | management_os/programs/fs.go:39 | the accepted bytes are written at the offset |
| OffsetCopy.CopyStream | management_os/programs/fs.go:27-52 | the result and the destination are those of the offset-by-offset copy function |
| OffsetCopy.CopyWritesSource | management_os/programs/fs.go:31-50 | each pass writes at the offset it read from and then moves on by what it read, so with no failures the destination begins with the whole source |
| OffsetCopy.CopyIntoEmpty | management_os/programs/fs_test.go:30-37 | copying into an empty file with no failures gives a destination equal to the source |
| OffsetCopy.ReadErrorUnwrapped | management_os/programs/fs.go:33-36 | a read error other than EOF is returned unwrapped, with nothing written at that offset |
| OffsetCopy.ShortWriteIsPartial | management_os/programs/fs.go:39-44 | a short write with a nil error is "partial copy" |
| OffsetCopy.CopyFile | management_os/programs/fs.go:13-25 | open failures return the error and change nothing; otherwise the destination is truncated and holds what the copy wrote, the error nil iff the copy succeeded |
| PartitionManager.Number | management_os/entrypoint/partition_manager.go:86 | the partition number uint32(i + 1) is below 2^32 and is i + 1 whenever that fits |
| PartitionManager.Generated | management_os/entrypoint/partition_manager.go:81-94 | every generated entry is a usable table entry (size not 512, start not 0) with no image, the current time and the device file "/dev/sda" followed by its number |
| PartitionManager.GeneratedSnoc | management_os/entrypoint/partition_manager.go:82-91 | one more table entry adds its fresh cache entry at the end exactly when it is usable |
| PartitionManager.GeneratedMember | management_os/entrypoint/partition_manager.go:83-91 | an entry is in the generated list if and only if it is the fresh entry of a usable table index |
| PartitionManager.GeneratedNumbersIncrease | management_os/entrypoint/partition_manager.go:86-89 | the numbers in the generated list strictly increase and lie in 1..len(table), so no two entries share a device file |
| PartitionManager.GeneratePartitionList | management_os/entrypoint/partition_manager.go:70-95 | with no readable disk or table the nil dereference panics; otherwise the loop builds exactly the generated list |
| PartitionManager.FirstMatch | management_os/entrypoint/partition_manager.go:101-107 | the lowest index holding the image, or none when no entry holds it |
| PartitionManager.Oldest | management_os/entrypoint/partition_manager.go:109-111 | the first index whose LastUsedTime is the least, since the comparison is strict |
| PartitionManager.Chosen | management_os/entrypoint/partition_manager.go:98-112 | there is no choice exactly for an empty list, where &partitionList[0] panics; otherwise the choice is the first entry already holding the image when there is one, and else the first least recently used entry |
| PartitionManager.Claimed | management_os/entrypoint/partition_manager.go:114-116 | the chosen entry gets the image and the current time, keeping its partition, number and device file; every other entry is unchanged |
| PartitionManager.ClaimedIsFound | management_os/entrypoint/partition_manager.go:98-117 | asking again for the image just placed picks the same partition |
| PartitionManager.Cache.constructor | management_os/entrypoint/partition_manager.go:22 | an empty partition list over the given cache file |
| PartitionManager.Cache.GetPartition | management_os/entrypoint/partition_manager.go:98-118 | on an empty list the method panics and changes nothing; otherwise it returns the chosen entry and updates the list to the claimed one; the cache file is untouched either way |
| PartitionManager.Cache.GetPartitions | management_os/entrypoint/partition_manager.go:34-67 | an existing cache file is decoded into the list when it can be opened and read, and the list is kept otherwise; a missing (or unstatable) file makes the list generated and written to the newly created file, and a missing partition table panics |
| PartitionManager.Cache.WritePartitionJson | management_os/entrypoint/partition_manager.go:121-127 | the file then holds the list; with no file only an error is printed |
| Util.GormValue | pkg/util/util.go:75-84 | the stored value is the decimal of the address read as base-16 with every ':' removed; an unparsable address is stored as "0" |
| Util.HexOf | pkg/util/util.go:94 | %x of an int64: the hex numeral of its magnitude, with a minus sign when negative |
| Util.GroupedSnoc | pkg/util/util.go:95-100 | each further hex digit is preceded by ':' exactly at even positions other than 0 |
| Util.GroupedUngroups | pkg/util/util.go:95-100 | removing the colons from the grouped string gives back the digits Scan copied |
| Util.MacAddress.constructor | pkg/util/util.go:65-67 | an address holding the given string |
| Util.MacAddress.Scan | pkg/util/util.go:87-103 | a non-int64 value is refused with "cannot parse mac address" and the address kept; an int64 becomes its %x digits grouped in twos by ':' |
| Util.ScanUngroups | pkg/util/util.go:87-103 | for a non-negative integer, Scan's output without colons is its hex numeral |
| Util.ScanThenGormValue | pkg/util/util.go:75-103 | storing what Scan produced from a non-negative integer stores that integer again |
| Util.LeadingZeroNotScanned | pkg/util/util.go:94-100 | no stored integer scans back to an address starting with '0' (such as "0a:1b"), since %x prints no leading zeros |
| Util.ProgressAppend | pkg/util/util.go:35-41 | the byte counts of two runs of reads add up, and EOF once seen stays seen |
| Util.ProgressEof | pkg/util/util.go:39-41 | atEOF holds if and only if some read returned io.EOF |
| Util.ProgressReporter.constructor | pkg/util/util.go:26-31 | a reporter over the given reads with nothing sent and no EOF |
| Util.ProgressReporter.Read | pkg/util/util.go:35-47 | the wrapped reader's (n, err) is returned unchanged, sent grows by n and io.EOF sets atEOF |
| Json.ValueInt | utils/baas-init/baas-json.c:72 | cJSON's `valueint` of any item lies in the C `int` range |
| Setups.FindByName | pkg/model/images/setup.go:74-82 | nothing is found if and only if no entry's image has the name; otherwise the result is the image and version of the first entry with that name |
| Setups.ImageSetup.CreateImageSetup | pkg/model/images/setup.go:52-57 | a setup with the given name, no images, and empty user and UUID |
| Setups.ImageSetup.AddImage | pkg/model/images/setup.go:60-66 | exactly one entry holding the image, the version and the update flag is appended; nothing else changes |
| Setups.ImageSetup.AddFrozenImages | pkg/model/images/setup.go:69-71 | the given entries are appended in argument order; nothing else changes |
| Setups.ImageSetup.GetImageFromSetup | pkg/model/images/setup.go:74-82 | the loop returns the first entry with that name, or nil when none has it |
| Setups.FindAfterAdd | pkg/model/images/setup.go:60-82 | an image just added is found by its name unless an earlier entry carries that name |
| Setups.FindKeepsEarlier | pkg/model/images/setup.go:69-82 | adding entries never changes what a lookup that already succeeds finds |
| ImageBase.DiskTypeString | pkg/model/images/base.go:38-45 | 0 is "raw", 1 is "qcow2", and every other value has the empty name |
| ImageBase.DiskTypeId | pkg/model/images/base.go:47-50 | "qcow2" is 1 and every other string, "raw" included, reads as the zero value DiskTypeRaw |
| ImageBase.MarshalDiskType | pkg/model/images/base.go:73-78 | the JSON is the name between double quotes, with no quote or backslash inside |
| ImageBase.UnmarshalDiskType | pkg/model/images/base.go:81-90 | a JSON value that is not a string or null is an error that leaves the target as it was; a string sets it to the toID lookup and null to DiskTypeRaw |
| ImageBase.DiskTypeRoundTrip | pkg/model/images/base.go:73-90 | raw and qcow2 survive marshal then unmarshal, whatever the target held |
| ImageBase.UnnamedDiskTypeBecomesRaw | pkg/model/images/base.go:73-90 | any other value marshals to "" and so comes back as DiskTypeRaw |
| ImageBase.ImageFileSize | pkg/model/images/base.go:187 | int64(imageSize * baseSize) lies in the int64 range and is the true product whenever that fits |
| ImageBase.ToInt64 | pkg/model/images/base.go:187 | the int64 conversion of a uint64 keeps every value below 2^63 |
| ImageBase.SeekOffset | pkg/model/images/base.go:189 | size-1 in int64 arithmetic, wrapping only at the smallest int64 |
| ImageBase.CreateSizedFile | pkg/model/images/base.go:178-205 | a failed open changes nothing; otherwise the file exists without being truncated, a negative seek offset is an error, a failed write is an error, and a written file is at least offset+1 bytes long; other files are untouched |
| ImageBase.SizedFileLength | pkg/model/images/base.go:186-197 | with no failures a new file made for imageSize * baseSize bytes, that product positive and below 2^63, is exactly that long |
| Images.FormatVersion | pkg/model/images/base.go:237-242 | the version formatted is the last one, plus one in uint64 arithmetic when the image has no checksum |
| Images.FormatImage | pkg/model/images/base.go:236-260 | ext4 runs "mkfs.ext4 <path>", fat32 runs a single program called "mkfs.fat -F 32", raw is left alone, any other file system leaves the command nil; a run that fails is fatal |
| Images.CreateImageFile | pkg/model/images/base.go:178-205 | the file made is ImagePath/0.img whatever directory is passed, and no other file changes; a failed open changes nothing; once the open and the write succeed the file is as long as the seek offset plus one byte says, and only a failed close is then reported |
| Images.BeforeCreate | pkg/model/images/base.go:158-175 | ImagePath becomes $BAAS_DISK_PATH/<UUID>; when that directory can be made it is, and then 0.img in it, 512 MiB long when the open and the write succeed on a new file; a failed open leaves every file as it was, and no other file changes; failures are only logged and the hook returns nil |
| Images.BeforeCreateFileSize | pkg/model/images/base.go:169 | the default image file is 512 MiB |
| Images.CreateMachineImageModel | pkg/model/images/machine.go:33-51 | a machine image named after the MAC, owned by "System", flat compression, placeholder checksum "DEADBEEF", ext4, stored in $BAAS_DISK_PATH, 128 MiB, with a nil error |
| Images.MachineBeforeCreate | pkg/model/images/machine.go:54-63 | ImagePath becomes $BAAS_DISK_PATH itself, the directory $BAAS_DISK_PATH/<UUID> is made when it can be, and the hook returns nil |
| LegacyImages.CreateImageFile | pkg/images/base.go:139-166 | the file made is <diskpath>/<UUID>/0.img, with the same open, seek and write behaviour |
| LegacyImages.CreateMachineModel | pkg/images/machine.go:30-38 | the image unchanged, the MAC, ext4 and 128 MiB, with a nil error |
| Compression.Unpacking | pkg/compression/compression.go:35 | a decompressing reader gives back the content packed by its own codec and garbage for anything else |
| Compression.Overwrite | management_os/entrypoint/fs.go:47-58 | a device opened read-write without truncation holds, after a copy from offset 0, exactly the stream when it held nothing, and over bytes the written bytes followed by the old bytes beyond them |
| Compression.OverwriteLonger | management_os/entrypoint/fs.go:47-58 | a later write of bytes at least as long as an earlier one hides the earlier one completely |
| Compression.Browbeat | pkg/compression/compression.go:24-26 | the strategy in lower case: it has no upper-case letter |
| Compression.BrowbeatIdempotent | pkg/compression/compression.go:24-26 | lower-casing twice gives the same as once |
| Compression.Decompress | pkg/compression/compression.go:29-39 | "none" in any letter case keeps the reader, "zstd" in any case decompresses it, and every other strategy is "unknown decompression strategy" |
| Compression.Compress | pkg/compression/compression.go:42-89 | "none" in any case keeps the reader, "zstd" in any case compresses it, and every other strategy, "GZip" included, is "unknown decompression strategy" |
| Compression.GzipNeverSelected | pkg/compression/compression.go:45-48 | the lowered strategy never equals "GZip", so nothing is ever gzip-compressed and "GZip" itself is refused |
| Compression.ZstdRoundTrip | pkg/compression/compression.go:29-85 | compressing and then decompressing with zstd, in any letter cases, gives back the original content |
| Compression.NoneRoundTrip | pkg/compression/compression.go:32-47 | "None" and then "NONE" leave the stream as it was |
| EntrypointCompression.Decompress | management_os/entrypoint/compression.go:14-25 | None keeps the reader, ZSTD decompresses it, and any other value is the only error |
| EntrypointCompression.Compress | management_os/entrypoint/compression.go:28-52 | None keeps the reader, ZSTD compresses it through a pipe, and any other value is the only error |
| EntrypointCompression.RoundTrip | management_os/entrypoint/compression.go:14-52 | whatever Compress accepts, decompressing with the same strategy gives the stream back; both refuse the same strategies |
| EntrypointCompression.AgreesWithNamedStrategies | management_os/entrypoint/compression.go:16-34 | the None and ZSTD enum values act as the names "none" and "zstd" do in the string dispatch of pkg/compression |
| Errors.Wrap | management_os/entrypoint/provision.go:20-22 | a nil cause stays nil and any other error becomes "msg: " followed by the cause's message |
| Provision.DevicePath | management_os/entrypoint/provision.go:67-72 | a Location starting with "/" is used as it is, any other goes under /dev/disk/by-uuid/; the path is always absolute |
| Provision.DevicePathIdempotent | management_os/entrypoint/provision.go:67-72 | resolving a resolved path changes nothing |
| Provision.DownloadDisk | management_os/entrypoint/provision.go:44-51 | the HTTP strategy fetches the disk from the control server; any other strategy is "unknown transfer strategy" |
| Provision.Decompress | management_os/entrypoint/provision.go:54-61 | only None is accepted, passing the stream through; anything else is "unknown decompression strategy" |
| Provision.WriteDisk | management_os/entrypoint/provision.go:66-86 | an unopenable device is "error opening path <path>" and nothing changes; the device is opened without truncation, so a successful copy leaves the stream written over its start and its old contents beyond, and a failed one leaves garbage and "error copying stream" |
| Provision.WriteOutDisks | management_os/entrypoint/provision.go:17-41 | the loop over the map's keys in the given order does what the run function says: each disk is downloaded, decompressed, written and its body closed, each failure wrapped with its own context |
| Provision.ProvisionedStopsAtFirstError | management_os/entrypoint/provision.go:18-38 | the run stops at the first error: the bodies closed are those of a prefix of the order, and of every disk when no error is returned |
| Provision.StoppedPrefix | management_os/entrypoint/provision.go:34-37 | a failing step closes its body or nothing, which is a prefix of the order |
| Provision.StepClosesOne | management_os/entrypoint/provision.go:19-37 | one iteration closes its own body or nothing, and closes it whenever it succeeds |
| Provision.ClosedPrefixThen | management_os/entrypoint/provision.go:18-38 | closing the first disk and then a prefix of the rest closes a prefix of the order |
| Provision.ProvisionedWritesEveryDisk | management_os/entrypoint/provision.go:17-41 | a run that returns nil fetched every disk over HTTP, uncompressed, and wrote a device at each disk's resolved path |
| Provision.WritesKeepPaths | management_os/entrypoint/provision.go:29 | a device once written stays present for the rest of the run |
| EntrypointFs.ReadOutcome | management_os/entrypoint/fs.go:23-28 | the opened device reads its contents; an open failure is "error opening path <device>" |
| EntrypointFs.WriteOutcome | management_os/entrypoint/fs.go:43-58 | a non-empty image checksum equal to the device's skips the write; otherwise an open failure names the device, a good copy writes the stream over the start of the device and keeps its old contents beyond, and a failed one leaves garbage and "Error compressing" |
| EntrypointFs.ReadDisk | management_os/entrypoint/fs.go:21-29 | getPartition panics exactly on an empty cache list, which is then unchanged; otherwise the image's partition is claimed in the cache and its device file opened |
| EntrypointFs.WriteDisk | management_os/entrypoint/fs.go:32-59 | getPartition panics exactly on an empty cache list, before any device is touched; otherwise the image's partition is claimed, its device's CRC32 compared with the image's checksum (a CRC error gives ""), and the stream written as the write outcome says |
| EntrypointFs.WriteThenRead | management_os/entrypoint/fs.go:21-58 | after a write that copied, reading the same image back finds the same partition and reads the stream written over the old contents: exactly the stream on a device that held nothing, and over bytes the written bytes followed by the old bytes beyond them |
| EntrypointFs.ChecksumSkips | management_os/entrypoint/fs.go:43-45 | a device that already carries the image's checksum is left as it is and the write succeeds |
| Download.GzipReader | management_os/entrypoint/download.go:34-38 | the gzip reader opens exactly on a gzip stream and then reads what it packs |
| Download.Decode | management_os/entrypoint/download.go:32-54 | exactly "GZip" goes through the gzip reader, whose failure stops without error; every other strategy goes through the case-insensitive dispatch, whose refusal is an error |
| Download.SetupOutcome | management_os/entrypoint/download.go:20-68 | setupDisk always asks for exactly this image's version once and keeps the cache list's length; it panics exactly when the download and decompression succeed and the cache list is empty, and then nothing is written or closed |
| Download.SetupDisk | management_os/entrypoint/download.go:20-68 | download, decompress, write onto the claimed partition and close the body, each failure wrapped with its context and getPartition's panic reported, as the outcome function says |
| Download.WrittenFrom | management_os/entrypoint/download.go:74-86 | the run over entries keeps the cache list's length, and a run that panics returns no error |
| Download.WriteOutDisks | management_os/entrypoint/download.go:71-87 | the loop over the setup's images, each with its VersionNumber, does what the run function says; every error, from any step, comes back wrapped as "couldn't close download body", and a panic ends the loop |
| Download.BodiesFrom | management_os/entrypoint/download.go:74-79 | the (UUID, version) pairs of the entries from i on, in order |
| Download.WrittenFetchesInOrder | management_os/entrypoint/download.go:74-84 | the downloads asked for extend those before and are a prefix of the entries' pairs, in setup order |
| Download.WrittenStopsAtFirstError | management_os/entrypoint/download.go:79-83 | a run that returns nil without panicking downloaded every entry in order; one that returns an error or panics downloaded at least the failing entry |
| Download.WrittenPanicsOnlyOnEmptyList | management_os/entrypoint/download.go:20-86 | a run panics only over an empty cache list, leaving the list, the devices and the closed bodies as they were; a run over a non-empty list never panics |
| Download.GzipFailureIsSilent | management_os/entrypoint/download.go:34-38 | a GZip image whose download is not gzip data is downloaded and then skipped: no device written, no body closed, no partition claimed and a nil error, since the wrapped error is the download's nil one |
| Download.LowerCaseGzipRefused | management_os/entrypoint/download.go:33-53 | "gzip" in lower case misses the exact comparison and is refused by the dispatch as an unknown strategy |
| Download.WriteFailureLeavesBodyOpen | management_os/entrypoint/download.go:56-59 | a failing write returns "error writing disk: ..." before the download body is closed |
| Upload.UploadDisk | management_os/entrypoint/upload.go:50-52 | the stream is sent under the image's UUID and the API's error is returned |
| Upload.EntryOutcome | management_os/entrypoint/upload.go:21-45 | an entry without Update changes nothing, on any list; a flagged entry panics exactly when the cache list is empty, uploading nothing; a flagged entry that succeeds adds exactly one upload, under its image's UUID, after those before |
| Upload.UploadedFrom | management_os/entrypoint/upload.go:21-46 | the run over entries keeps the cache list's length, and a run that panics returns no error |
| Upload.ReadInDisks | management_os/entrypoint/upload.go:18-47 | the loop over the setup's images does what the run function says: read, compress and upload each flagged one, each error wrapped, getPartition's panic reported, nil at the end |
| Upload.Selected | management_os/entrypoint/upload.go:24-27 | the UUIDs of the entries flagged for update, at most one per entry |
| Upload.Uuids | management_os/entrypoint/upload.go:51 | the UUID of each upload, in order |
| Upload.UploadsSelected | management_os/entrypoint/upload.go:18-47 | a run that returns nil without panicking uploads exactly the flagged entries, each once, in setup order, under its image's UUID |
| Upload.UploadPanicsOnlyOnFlagged | management_os/entrypoint/upload.go:21-46 | a run over a non-empty cache list never panics; over an empty one it panics exactly when some entry is flagged for update; with no flagged entry it returns nil and changes nothing, on any list |
| Upload.EntryUuids | management_os/entrypoint/upload.go:24-45 | an entry that ends without error or panic adds its UUID when flagged and nothing otherwise |
| Upload.UuidsAppend | management_os/entrypoint/upload.go:21-45 | the UUIDs of two runs of uploads concatenate |
| Upload.UploadDecompresses | management_os/entrypoint/upload.go:29-41 | what a "zstd" entry uploads decompresses back to the contents of its partition's device |
| EntrypointMain.Candidates | management_os/entrypoint/main.go:32-41 | the collected addresses are non-empty ones of interfaces that are up, at most one per interface |
| EntrypointMain.CandidatesFirst | management_os/entrypoint/main.go:33-47 | there is no candidate if and only if no interface is up with an address; otherwise the first candidate is the address of the first such interface |
| EntrypointMain.GetMacAddr | management_os/entrypoint/main.go:27-48 | a listing error is returned with an empty address; otherwise the error is nil and the address is the first candidate, or "" when there is none |
| EntrypointMain.LastSetup | management_os/entrypoint/main.go:90-122 | an existing last_setup.json gives its setup when it opens and decodes, the zero setup otherwise, and is then removed; a missing one is created empty and the zero setup returned |
| EntrypointMain.StoredSetup | management_os/entrypoint/main.go:146-162 | teardown encodes the setup into last_setup.json; a failed open leaves the file as it was |
| EntrypointMain.StoredSetupReadOnce | management_os/entrypoint/main.go:90-162 | with no failures the setup one run stores is the one the next run reads, and reading consumes it: the run after that sees the zero setup |
| EntrypointMain.UnreadableGivesZero | management_os/entrypoint/main.go:93-99 | a file that cannot be opened or decoded gives the zero setup, whose empty UUID turns uploading off |
| EntrypointMain.PlannedPrelude | management_os/entrypoint/main.go:181-194 | a run starts with the MAC address and the machine partition, and uploads the disks if and only if configured and there is a last setup |
| EntrypointMain.PlannedMiddle | management_os/entrypoint/main.go:196-225 | a run then asks for the setup, writes the disks and stores the setup, in that order, and sets the next boot and reboots exactly when configured, in that order |
| EntrypointMain.EntrypointMain | management_os/entrypoint/main.go:178-226 | the steps taken, the fatal message and the panic flag are exactly the run of the plan that stops at the first step that fails or panics: with neither, every planned step is taken; a failing step is last and its own error ("Failed to read the disks: <err>" for the upload) is the fatal message, and it is never the machine initialisation or teardown; a panic, in initializeMachine, ReadInDisks or WriteOutDisks, ends the run at that step with no fatal; a failed MAC lookup ends it at once |
| EntrypointMain.RunFacts | management_os/entrypoint/main.go:178-226 | a fail-fast run takes a prefix of its steps; it has neither fatal nor panic if and only if no step fails or panics, and then takes them all; otherwise it ends at the first step that stops it, with no fatal when that step panics and the step's error when it fails, every earlier step having gone through |
| EntrypointMain.RunAppend | management_os/entrypoint/main.go:178-226 | running two step lists one after the other is running the first and, only when it had neither fatal nor panic, the second after it |
| EntrypointMain.RunCons | management_os/entrypoint/main.go:178-226 | a run stops at its first step when that step panics (no fatal) or fails (its error), and otherwise takes it and goes on with the rest |
| EntrypointMain.PrefixThen | management_os/entrypoint/main.go:187-206 | the steps taken after the prelude keep the whole a prefix of the plan |
| EntrypointMain.PlannedSplits | management_os/entrypoint/main.go:178-226 | the plan is the prelude followed by the rest of the run |
| EntrypointMain.RunAfterPrelude | management_os/entrypoint/main.go:196-225 | the steps from the setup on are the fail-fast run of their plan: a panic happens exactly when the setup arrives and WriteOutDisks panics, and then the run ends after WriteOutDisks with no fatal; no fatal and no panic if and only if asking for the setup, writing the disks, and (when configured) efibootmgr and the reboot all succeed; otherwise the failing step is last and its error is the fatal message |
| EntrypointMain.RunFinale | management_os/entrypoint/main.go:209-225 | setting the next boot and rebooting run exactly when configured, as a fail-fast run that never panics: no fatal if and only if each configured step succeeds; a failure ends the run at that step with its error |
| EntrypointMain.PreludeRun | management_os/entrypoint/main.go:181-194 | the prelude stops at a failed MAC lookup with its error, at a panicking initializeMachine with no fatal, and at a panicking or failing ReadInDisks when uploading is configured with a last setup; otherwise it takes the MAC lookup, the initialisation and the upload when configured |
| EntrypointMain.AfterPreludeRun | management_os/entrypoint/main.go:196-225 | after the prelude, a failed BootInform stops the run, a panicking WriteOutDisks stops it with no fatal, a failing one with its error, and otherwise teardown and the finale follow |
| EntrypointMain.FinaleNeverPanics | management_os/entrypoint/main.go:209-225 | setting the next boot and rebooting never panic |
| EntrypointMain.PanicEndsMain | management_os/entrypoint/main.go:178-226 | a run of main that panics has no fatal, stops at initializeMachine, ReadInDisks or WriteOutDisks, and never stores the setup, sets the next boot or reboots |
| Logger.LevelName | management_os/entrypoint/logger.go:54 | the level's name has no upper-case letter, and is "unknown" exactly for values beyond trace |
| Logger.LevelColor | management_os/entrypoint/logger.go:41-50 | debug and trace are grey (90), warnings yellow (33), error, fatal and panic red (31), and every other level blue (34) |
| Logger.Format | management_os/entrypoint/logger.go:37-55 | a line starts with "[<time>] - ", then carries the level in upper case between the escape codes of its colour and the reset, then " - ", and ends with the message and a newline |
| Logger.FormatInjective | management_os/entrypoint/logger.go:52-54 | two lines with the same time and level are equal if and only if their messages are |
| Logger.WarningHeader | management_os/entrypoint/logger.go:44-54 | a warning is written as "WARNING" in yellow, code 33 |
| Logger.UpperWarning | management_os/entrypoint/logger.go:54 | the upper-cased name of the warning level is "WARNING" |
| ApiAccess.RoleFound | control_server/api/api.go:70-75 | the loop ends with found true if and only if the session's role is one of the route's permissions |
| ApiAccess.CheckRole | control_server/api/api.go:53-110 | the handler runs if and only if the request is admitted: a "system" request always is; otherwise a route closed to users gives 400, a session without a role 404, and a role that is not permitted gives 403 unless the URI's non-empty "name" is the session's own username |
| ApiUtil.GetImageByUuid | pkg/database/sqlite/image.go:17-25 | the lookup succeeds exactly for a stored UUID and then gives that image |
| ApiUtil.RecordVersion | pkg/database/sqlite/image.go:40-42 | the new version row joins the end of the versions of the image it names; no image is added and every other image is unchanged |
| ApiUtil.StoreImage | pkg/database/sqlite/image.go:9-14 | the image's versions become the single version 0 of its own UUID, on the caller's image as well, and it is stored under its UUID with no other image changed |
| ApiUtil.StoredImageVersions | pkg/database/sqlite/image.go:9-14 | storing keeps the store keyed by UUID, and the next version CreateNewVersion makes for the stored image is version 1, after version 0 |
| ApiUtil.GetTag | control_server/api/util.go:21-32 | a present, non-empty URI variable is returned with nothing written; otherwise the reply is 400 "<tag> not found" and the error carries the same text |
| ApiUtil.GetName | control_server/api/util.go:35-37 | GetName behaves exactly as GetTag on "name" |
| ApiUtil.ErrorWrite | control_server/api/util.go:57-64 | the error is returned as it is, and a 500 reply with the message is written if and only if there is one |
| ApiUtil.CreateNewVersion | control_server/api/util.go:40-54 | for a stored image the new version is its last version plus one (wrapping in uint64) for its UUID, recorded in the store; otherwise the zero Version, "cannot fetch image from database" and an unchanged store |
| ApiUtil.NewVersionIsLatest | control_server/api/util.go:40-54 | in a store keyed by UUID the new version becomes the image's latest and no other image changes |
| ApiImage.CheckUserImage | control_server/api/image.go:26-56 | the image is returned exactly when the URI's UUID is present and stored and the request is "system" or from the image's owner; a missing UUID is answered with 400 first, an unknown one with 500, another user's image with 403 |
| ApiImage.NewImage | control_server/api/image.go:95-99 | the stored image is the decoded one with the fresh UUID, and Type "base" when none was given |
| ApiImage.CreateImage | control_server/api/image.go:67-111 | 400 for an empty Name, then an empty Username, then any Versions, and only then a decode error; otherwise 201, and the image with the defaults applied and the store's first version 0 is stored under its new UUID and sent back; a refusal leaves the store unchanged |
| ApiImage.CreatedImageIsOwned | control_server/api/image.go:26-111 | an image just created can be fetched by its UUID by its owner, with the defaults applied and version 0 as its only version |
| ApiImage.UpdateImage | control_server/api/image.go:134-151 | checkUserImage's refusal is passed on; a decode error or a decoded UUID different from the stored one gives 400; otherwise, and exactly then, the decoded image replaces the stored one and is sent back with 200 |
| ApiImage.DownloadVersion | control_server/api/image.go:174-179 | the version in the URI is accepted exactly when it is a base-10 uint64, and otherwise answered 404 "Cannot download the image" |
| ApiImage.LatestVersionDownloads | control_server/api/image.go:237-241 | the latest version printed in base 10 is read back as that very number by DownloadImageFile |
| ApiImage.UpdateVersion | control_server/api/image.go:249-257 | a stored image gives its latest version; any other UUID the store's error |
| ApiImage.ManageVersion | control_server/api/image.go:259-275 | a read error or an answer that is not "true" or "false" in any letter case gives no version and the read error; "true" creates a new version and "false" takes the latest one |
| ApiImage.UnknownAnswerGivesNothing | control_server/api/image.go:263-265 | an answer such as "yes" read cleanly gives neither a version nor an error |
| ApiImage.NewVersionThenLatest | control_server/api/image.go:259-275 | in a keyed store "True" makes a new version and a later "false" returns that same version |
| ApiUsers.MissingField | control_server/api/users.go:48-66 | no field is reported if and only if username, name, email and role are all set; otherwise the first empty one in that order, with its message |
| ApiUsers.CreateUser | control_server/api/users.go:38-79 | a decode error gives 400 "invalid user given" before any field is looked at; then the first empty field gives 400; only a complete user changes the store, a store error giving 500 and success "Successfully created user" |
| ApiUsers.GetLoggedInUser | control_server/api/users.go:83-100 | without a session username 400, for a user the store lacks 404, and the reply is 200 with the user exactly when it is stored |
| ApiUsers.GetUser | control_server/api/users.go:107-140 | without a session username 400, without a URI name 400; the reply is 200 with the named user exactly when that user is stored and is an admin or is the session's own user |
| ApiUsers.GetUserIgnoresRequesterRole | control_server/api/users.go:107-140 | the requester's own role never matters, so a plain user can read any admin's profile |
| ApiUsers.CreatedUserReadsSelf | control_server/api/users.go:38-140 | a user just created can read their own profile through both handlers |
| Machines.Lookup | control_server/machines/store.go:51-61 | a stored MAC gives its machine with a nil error; any other gives the zero Machine and "machine with mac address <mac> not found" |
| Machines.InMemoryMachineStore.InMemoryStore | control_server/machines/store.go:44-48 | a store with no machines |
| Machines.InMemoryMachineStore.GetMachine | control_server/machines/store.go:51-61 | the lookup of the MAC in the store |
| Machines.InMemoryMachineStore.UpdateMachine | control_server/machines/store.go:64-73 | the machine is stored under its own MAC, replacing any earlier entry; the result is nil |
| Machines.LookupAfterUpdate | control_server/machines/store.go:51-73 | after an update the machine's MAC finds it and every other MAC finds what it found before |
| Machines.ArchId | control_server/machines/architecture_watcher.go:21 | the id is below 2^16, with the option's first byte as its high byte and the second as its low byte |
| Machines.Classify | control_server/machines/architecture_watcher.go:30-37 | x86_64 exactly for ids 0 and 7, Arm64 exactly for 11, and unknown for every other id, 6 and 10 included |
| Machines.UefiSixIsUnknown | control_server/machines/architecture_watcher.go:32 | the label written as a bitwise or of 6 and 7 is the single value 7 in Go, so x86 with UEFI announced as 6 is classified unknown |
| Machines.ClassifyIntended | control_server/machines/architecture_watcher.go:29-37 | the switch as its comments describe it: x86_64 for 0, 6 and 7, Arm64 for 11, unknown otherwise |
| Machines.IntendedDiffersOnlyAtSix | control_server/machines/architecture_watcher.go:30-37 | the written and the intended switch disagree on id 6 and on no other id |
| Machines.ServeDhcp | control_server/machines/architecture_watcher.go:13-51 | an architecture option that is not two bytes long changes nothing; otherwise the client's MAC is stored with the architecture the switch as written gives its id, so id 6 is stored as unknown; the reply is always the empty packet |
| Machines.ServeDhcpIntended | control_server/machines/architecture_watcher.go:13-51 | the same handler with the corrected switch: the MAC is stored with x86_64 for ids 0, 6 and 7 |
| InMemoryDb.ListValues | pkg/database/in_memory.go:13-16 | the range loop yields one value per key, in the order the keys are visited: as many values as keys, every key's value among them, and nothing that is not some key's value |
| InMemoryDb.InMemoryStore.NewInMemoryStore | pkg/database/in_memory.go:58-62 | an empty machines map and a nil users map |
| InMemoryDb.InMemoryStore.GetMachines | pkg/database/in_memory.go:12-19 | every stored machine once, in the map's unspecified iteration order, as many as there are MACs, with a nil error |
| InMemoryDb.InMemoryStore.GetUserByName | pkg/database/in_memory.go:21-28 | the user stored under the name, or NotFound, also on the nil map |
| InMemoryDb.InMemoryStore.UpdateUser | pkg/database/in_memory.go:30-33 | the user is stored under its Name; on a new store's nil map the write panics |
| InMemoryDb.InMemoryStore.UpdateMachineByMac | pkg/database/in_memory.go:35-47 | a machine without a MAC is refused and nothing changes; otherwise it is stored under `mac`, or under its own MAC when `mac` is empty |
| InMemoryDb.InMemoryStore.GetMachineByMac | pkg/database/in_memory.go:49-56 | the machine stored under the MAC, or NotFound |
| InMemoryDb.UpdateThenGet | pkg/database/in_memory.go:35-56 | a machine stored with no key given is found again under its own MAC |
| BootConfigs.ApiBootConfig | control_server/api/boot.go:36-57 | the architecture is lower-cased, so x86_64 in any letter case gets the management kernel with "root=sr0"; every other gets the empty configuration, never nil |
| BootConfigs.ApiArmCaseUnreachable | control_server/api/boot.go:38-51 | no architecture lower-cases to "Arm64", so the Arm64 case is dead and Arm64 gets the empty configuration |
| BootConfigs.ApiServe | control_server/api/boot.go:60-93 | an unsplittable remote address gives 500, an unknown machine 404, and otherwise the configuration is sent with status 200, which a failed encoding's later 500 error cannot change |
| BootConfigs.RouteBootConfig | control_server/httpserver/bootconfigroute.go:29-47 | exactly "x86_64" gets the management kernel with "root=sr0"; everything else nil |
| BootConfigs.RouteServe | control_server/httpserver/bootconfigroute.go:50-83 | an unsplittable address gives 500; an unknown machine or an architecture without a configuration gives 404; a 200 reply carries the x86 configuration, followed by an error exactly when encoding fails |
| BootConfigs.HandlerBootConfig | control_server/httpserver/bootconfig.go:31-49 | exactly "x86_64" gets the management kernel with an empty command line; everything else nil |
| BootConfigs.HandlerServe | control_server/httpserver/bootconfig.go:51-84 | an unsplittable address and an unknown machine both give 500, a machine that is not x86_64 gives 404, a failed encoding panics, and a known x86_64 machine whose encoding succeeds gets exactly the x86 configuration with an empty command line, which is the only 200 reply |
| BootConfigs.EndpointsDisagree | control_server/httpserver/bootconfig.go:31-84 | the three endpoints disagree: on "X86_64" only the api one boots the machine, an unknown machine is 404 on the routes and 500 on the handler, and the handler's command line differs from the routes' |

The members not listed are helpers:

- the `Kernel`, `Json`, `Http`, `Text` and `Wrappers` modules;
- the `DiskModel` declarations;
- the predicates that the listed contracts are written in.

## Left out

- The Linux kernel is an abstract state. Loop-device ioctls, open, mount, umount2, mkdir, rmdir, execve and waitpid change it only as far as the shim reads them back. Kernel errors other than the modelled ones (EIO, ENOMEM, EINTR) are a set of failing call positions.
- Signals, fork and setsid in baas-init.c are left out because they are concurrency. Models cover sigreap's drain loop over the child table and the single wait of spawn.
- curl is left out because it is a foreign library. The handle records the options set and the transfers performed; no bytes move over the network.
- cJSON's parser is foreign, so the shim decodes an already parsed `Json` value.
- zstd, gzip, CRC32, libblkid and the diskfs partition table reader are opaque. A codec is a symbolic wrapper around the content it packs, a checksum is an input, and a probe result is given per partition. The piping goroutines of both Compress functions are not modelled.
- The mutex of control_server/machines/store.go and every other lock are left out because concurrency is not modelled.
- Machines.ServeDhcp: the client hardware address is taken already printed as a string, because dhcp4's formatting is foreign. The Machine's IP and Info fields keep their zero values and are not represented.
- Machines.ServeDhcp uses the constant X86_64, but control_server/machines/architecture.go declares it as X8664. Its value "x86_64" is used.
- The database behind ApiUtil, ApiImage and ApiUsers is a value map, because gorm and sqlite are foreign. Versions keep the order in which they were recorded, and a store error is the single value STORE_NOT_FOUND.
- A request body is reduced to the value its JSON decoder gives and whether the decoder reported an error. The new image's UUID is a parameter, because the generator is random.
- The file transfers of the image handlers are left out because they are byte I/O: DownloadImageFile's copy, UploadImage's multipart read, and OpenImageFile.
- UploadImage, GetImage, GetUsers and DeleteImage are left out because they are store calls followed by JSON encoding. So are the Register*Handlers route tables and NewAPI. The decisions they delegate are modelled: checkUserImage, manageVersion, GetTag and ErrorWrite.
- A session is the Option of each value the handlers read, because gorilla's cookie store is foreign.
- Logger.Format: the time is the string logrus's formatting produces, supplied as a parameter.
- printPartitions, PrettyPrintStruct and every log.* call are left out; they only log. So are the printf, fprintf, perror and puts output of the C programs (puts at baas-init.c:81, baas-init.c:175 and test.c:42). A log.Fatalf that ends the process is modelled as a terminal outcome.
- The deferred Close of the pgzip reader in download.go is left out because pgzip is foreign. The download body's Close is modelled.
- Images.MachineBeforeCreate: only ImagePath and the mkdir are modelled. The later calls are not: CreateImageFile is called with two arguments against a three-parameter signature, and GenerateChecksum and FormatImage run commands.
- Images.BeforeCreate: BAAS_DISK_PATH is used as the Sprintf format. This is only modelled for a path without a `%` verb, which is the only kind that formats to itself.
- The GenerateChecksum, OpenImageFile, UpdateImage and AfterDelete methods of the image models are left out because they are file and command effects with no decision in them.
- Images.FormatImage requires a non-empty version list, where the source's index panics on an empty one. The same holds for ApiImage.UpdateVersion, ApiImage.ManageVersion, ApiImage.LatestVersionDownloads and ApiUtil.CreateNewVersion for an image that exists.
- Util.GormValue: the overflow case, where strconv gives the maximum uint64 with an error, is not stated. Only the parsed and the syntax-error cases are stated.
- LoopbackMount.MountPartitions: the uninitialised devname is an arbitrary string parameter, because its stack contents are undefined.
- Loop devices: whether LOOP_SET_FD turns on partition scanning by default (the loop driver's max_part setting) is not modelled; the flags start as READ_ONLY or 0. The holds that keep an autoclear device bound are the open descriptors and the other loop devices backed by it; mounts and other processes are not counted, and descriptors left open when a process exits are not released.
- Json.JNumber carries an integer. cJSON stores numbers as doubles, and valueint is their conversion to int (truncating, saturating at the int bounds), so fractional numbers and integers beyond 2^53, such as a large uint64 version, are not modelled as cJSON rounds them.
- BaasInit.Download: after a failed fopen the source still runs network_execute with a NULL stream, so the request is made and the write callback crashes; the model records only the failed open and the crash, not that request.
- BaasInit.ImageUris: the URI is the full text; that sprintf writes it into a 256-byte buffer (baas-init.c:94-95) and would overflow it for a long UUID is not modelled.
- BaasInit.ImageChild: the manifest buffer of 1024 bytes that cJSON_Parse reads (baas-init.c:87-90) is not necessarily NUL-terminated; the model starts from the parsed document, so a document longer than the buffer or one read past its end is not modelled.
- Compression.Overwrite: a device is not sized. A write longer than the partition, which would fail at its end, is modelled as fitting, and a failed copy leaves garbage whatever part was written.
- The HTTP routing and servers, the network clients, the sqlite package, the Python gRPC server and the configuration loader are outside the modelled core.

## Findings

| source | as written | input that shows it | evidently intended | confidence | as-written member | corrected member |
|---|---|---|---|---|---|---|
| utils/loopback_mount.c:167-170 | the second snprintf writes "<device>p<i>" into dirname, so the mount goes onto the partition node, and its source devname is never initialised | npartitions = 1, device "/dev/loop0": mount(junk, "/dev/loop0p0", ...) | mount the node blkid probed for entry i, "<device>p<i+1>", with entry i's type on "/mnt/partition<i>" | high, not executed | LoopbackMount.MountPartitions, LoopbackMount.AsWrittenMissesDirs | LoopbackMount.MountPartitionsIntended, LoopbackMount.IntendedMountsDirs |
| utils/loopback_mount.c:102 | each entry is copied into a local before blkid's UUID, LABEL and TYPE are looked up into it, so the returned list keeps calloc's NULL fields | a device with one partition whose node "<device>p1" blkid reads as ext4: the list's type stays NULL and every mount of it is refused | the lookups land in the list entry itself, so the list carries each probed partition's type; since blkid_probe_lookup_value gives strings held by the child probe, which blkid_free_probe releases at line 124, the corrected code must also copy them (with strdup) before that call; the model's strings are values, so Probed is the intended list | high, not executed | LoopbackMount.GetPartitionInfo, LoopbackMount.UnprobedRefused | LoopbackMount.GetPartitionInfoIntended, LoopbackMount.ProbedTypesMount |
| control_server/machines/architecture_watcher.go:32 | the second x86 case label is 6 bitwise-or 7, which is the single value 7 | option 93 bytes [0, 6], x86 with UEFI: classified "unknown" | ids 6 and 7 both give x86_64, as the comment on that line says | high, not executed | Machines.Classify, Machines.UefiSixIsUnknown, Machines.ServeDhcp | Machines.ClassifyIntended, Machines.IntendedDiffersOnlyAtSix, Machines.ServeDhcpIntended |

Other behaviours of the code that a reader might not expect, each stated as a lemma:

- The shim decodes a NULL document to an empty setup (BaasJson.NullDocumentIsEmptySetup).
- main never calls get_image, and main returns 0 after a failed execve (BaasInit.InitMain).
- test.c sets LO_FLAGS_AUTOCLEAR with its 0xFFFFFFFE, so the device it binds is detached again when its last descriptor closes (LoopTest.TestMain).
- Compress's GZip branch cannot be reached (Compression.GzipNeverSelected).
- A lower-case "gzip" strategy is refused when writing a disk (Download.LowerCaseGzipRefused).
- A setup download that fails inside gzip is not reported (Download.GzipFailureIsSilent).
