# proc_pid: the per-process cache of the Linux proc PMDA

This project models the core of the PCP Linux `proc` agent's process cache.
Its source is `src/pmdas/linux_proc/proc_pid.c`. The model covers these parts:

- **The pid-list builder** (`pidlist_append_pid`, `pidlist_append`,
  `tasklist_append`, `compare_pid`, `refresh_global_pidlist` and
  `refresh_cgroup_pidlist`). The growable int array is a class whose
  `pids` field is a `seq<int>` that the methods reassign; it fills from a
  `/proc` listing or a control-group membership file.
- **The mark-sweep reconcile** (`refresh_proc_pidlist`) over the cache.
  It is class `ProcPid`, which holds the hash table as a `map<int, Entry>`,
  the instance table and the string table. The steps are:
  - every entry is invalidated;
  - the new list is walked, and each pid not yet cached gets a new entry
    and its display label;
  - the instance table is republished in list order;
  - the entries still invalid are harvested.
- **The mode dispatch** `refresh_proc_pid`.
- **The nine lazy fetchers** `fetch_proc_pid_*`, with ten `*_fetched` flags:
  `fetch_proc_pid_stat` also reads the wchan file (proc_pid.c:361-386) under
  its own flag. The stat, wchan, statm, status, maps, schedstat and io
  fetches keep a per-entry buffer that never shrinks; the fd, cgroup and
  label fetches keep a count or an interned string identifier.
- **The text parsers:**
  - the status-file line locator, which works with `strsep(3)` over the
    buffer and cuts lines in place;
  - the seven-line split of the io file;
  - `proc_cgroup_reformat`;
  - `_pm_getfield`, with its static scratch buffer.
- **The label ladder.** A label is built from the command line, or else
  from the status file's `Name:` line, or else the `<exiting>` sentinel is
  used. All of it happens on the 1024-byte stack buffer that the walk
  shares between pids.

Each file read is an input. `Read` is `OpenFailed | ReadFailed | Got(data)`,
and one read(2) of at most n bytes gives `Take(data, n)`. A directory
listing is the sequence of names readdir(3) returns, or None when
opendir(3) fails. The cgroup membership files map a path to the integers
fscanf(3) reads from it.

The modules are:

| module | what it holds |
|---|---|
| `CString` | C strings, `%d` and `%06d`, and atoi(3) |
| `PidList` | the pid list and its reference definitions |
| `Label` / `LabelFacts` | the label ladder and what it produces |
| `PidWalk` | the walk over the new list |
| `ProcEntry` / `EntryFacts` | entries, the fetch steps and their laws |
| `LineScan` / `LineFacts` | the status and io scanners and their laws |
| `Cgroup` | `proc_cgroup_reformat` |
| `Field` | `_pm_getfield` |
| `ProcCache` | class `ProcPid` and the reconcile |

## Model

| member | source | states |
|---|---|---|
| CString.Find | src/pmdas/linux_proc/proc_pid.c:222 | the first index from `from` holding c, with no c before it; None exactly when none holds c (strchr/index) |
| CString.CStr | src/pmdas/linux_proc/proc_pid.c:238 | the C string of a buffer is its longest NUL-free prefix, ended by a NUL when shorter than the buffer |
| CString.CStrStopsAtNul | src/pmdas/linux_proc/proc_pid.c:238 | a C string ends at the first NUL whatever follows it |
| CString.CStrAppend | src/pmdas/linux_proc/proc_pid.c:238 | a NUL-free front survives strdup(3) unchanged in front of the C string of the rest |
| CString.AtoiDecimal | src/pmdas/linux_proc/proc_pid.c:54 | atoi(3) of the `%d` rendering of n gives n back |
| CString.AtoiPad6 | src/pmdas/linux_proc/proc_pid.c:178 | atoi(3) of the `%06d` rendering of n >= 0 gives n back (zero padding is read as value) |
| CString.Pad6Width | src/pmdas/linux_proc/proc_pid.c:178 | `%06d` of a pid below one million is exactly six characters |
| CString.Pad6Seven | src/pmdas/linux_proc/proc_pid.c:178 | `%06d` of a seven-digit pid is seven characters |
| PidList.ComparePid | src/pmdas/linux_proc/proc_pid.c:29-35 | the comparator's sign is negative, zero or positive exactly when a < b, a == b or a > b |
| PidList.Insert | src/pmdas/linux_proc/proc_pid.c:124 | insertion into an ascending sequence stays ascending and adds exactly x to its multiset |
| PidList.SortAsc | src/pmdas/linux_proc/proc_pid.c:124 | the reference sort: ascending, same length, a permutation of its input |
| PidList.AscendingUnique | src/pmdas/linux_proc/proc_pid.c:124 | two ascending permutations of the same multiset are equal, so qsort's result is determined |
| PidList.EntryPidsMembers | src/pmdas/linux_proc/proc_pid.c:115-121 | a /proc entry contributes x exactly when its name is numeric and reads as x, or threads are wanted and one of its numeric task names, other than the entry's own name, reads as x |
| PidList.GlobalPidsMembers | src/pmdas/linux_proc/proc_pid.c:104-126 | x is collected exactly when some /proc entry has a numeric name reading as x, or threads are wanted and one of that entry's numeric task names, other than its own, reads as x |
| PidList.TaskPidsMembers | src/pmdas/linux_proc/proc_pid.c:57-73 | a task list contributes exactly the numeric task names other than the owning pid, each as atoi of the name |
| PidList.CgroupPath | src/pmdas/linux_proc/proc_pid.c:90-93 | the membership file is the cgroup path, a `/`, then `tasks` exactly when threads are wanted and `cgroup.procs` exactly when they are not |
| PidList.CgroupPathsDiffer | src/pmdas/linux_proc/proc_pid.c:90-93 | different cgroups, or the two modes of one cgroup, never name the same membership file |
| PidList.PidList.constructor | src/pmdas/linux_proc/proc_pid.c:27 | the static list starts empty, with no storage |
| PidList.PidList.AppendPid | src/pmdas/linux_proc/proc_pid.c:37-49 | the pid is appended after the earlier ones, which stay; size grows by 64 exactly when count >= size |
| PidList.PidList.AppendName | src/pmdas/linux_proc/proc_pid.c:51-55 | the list gains atoi of the name at its end |
| PidList.PidList.TaskListAppend | src/pmdas/linux_proc/proc_pid.c:57-73 | the list gains the thread pids of an opened task directory in readdir order, and nothing when it does not open |
| PidList.PidList.AppendEntry | src/pmdas/linux_proc/proc_pid.c:115-121 | the list gains what the /proc entry contributes |
| PidList.PidList.Sort | src/pmdas/linux_proc/proc_pid.c:124 | the list becomes the reference sort of its old contents, with count and size unchanged |
| PidList.PidList.RefreshGlobal | src/pmdas/linux_proc/proc_pid.c:104-126 | an unopenable /proc gives a negative status and an unchanged list; otherwise the list is the sorted collection of /proc and the status is its length |
| PidList.PidList.RefreshCgroup | src/pmdas/linux_proc/proc_pid.c:75-102 | the list is the integers of the membership file, empty when it does not open, and the status is its length |
| Label.Take | src/pmdas/linux_proc/proc_pid.c:179 | one read returns the file's first min(n, size) bytes |
| Label.Widths | src/pmdas/linux_proc/proc_pid.c:176-178 | for a C int, the cmdline and status paths and the `%06d ` prefix fit the 1024-byte buffer |
| Label.LastMark | src/pmdas/linux_proc/proc_pid.c:182-187 | the backward skip over trailing NULs stops at the last non-NUL byte after index 0, or at 0 |
| Label.StopAt | src/pmdas/linux_proc/proc_pid.c:222 | strchr(buf+2, '\n') in a buffer: the first newline or NUL from `from`; None when strchr would run off the buffer |
| Label.Store | src/pmdas/linux_proc/proc_pid.c:178 | a memcpy/sprintf into the array writes s at `at` and nothing else |
| Label.FixCmdline | src/pmdas/linux_proc/proc_pid.c:180-193 | the two backward pointer loops turn the read bytes into CmdlineFix of them, in place |
| Label.Strchr | src/pmdas/linux_proc/proc_pid.c:222 | the scan over the array gives the reference StopAt |
| Label.Strdup | src/pmdas/linux_proc/proc_pid.c:238 | the copy is the C string of the buffer |
| Label.StoreCmdline | src/pmdas/linux_proc/proc_pid.c:180-193 | after the read, the NUL at the end and the fix-up, the buffer holds CmdlineFix of the data and a NUL from index 7 |
| Label.CmdlineRead | src/pmdas/linux_proc/proc_pid.c:176-196 | the imperative command-line branch leaves the buffer and k the reference stage gives |
| Label.StatusRead | src/pmdas/linux_proc/proc_pid.c:204-230 | the imperative status branch leaves the buffer and k the reference stage gives |
| Label.NameClose | src/pmdas/linux_proc/proc_pid.c:222-227 | closing the name with ")" and NUL, then writing "%06d (" over the front, is the reference NameStage |
| Label.BuildLabel | src/pmdas/linux_proc/proc_pid.c:169-238 | the label the walk stores is LabelOf for the pid's files and buffer, and the buffer is left as LabelBuffer says |
| LabelFacts.TrimNuls | src/pmdas/linux_proc/proc_pid.c:182-187 | trailing NULs dropped: a prefix ending in a non-NUL, followed only by NULs |
| LabelFacts.SpaceNuls | src/pmdas/linux_proc/proc_pid.c:188-193 | interior NULs turned into spaces: same length, no NUL |
| LabelFacts.CmdlineText | src/pmdas/linux_proc/proc_pid.c:180-193 | the fixed command line reads as its trailing NULs dropped and its NULs spaced, or as empty when it starts with a NUL |
| LabelFacts.CmdlineName | src/pmdas/linux_proc/proc_pid.c:176-238 | a non-empty command line of a six-digit pid gives "%06d " followed by the command line with trailing NULs dropped and interior NULs as spaces |
| LabelFacts.CmdlineLeadingNul | src/pmdas/linux_proc/proc_pid.c:179-238 | a command line starting with a NUL gives just "%06d " |
| LabelFacts.SevenDigitPid | src/pmdas/linux_proc/proc_pid.c:178-179 | for a seven-digit pid the read at buf+7 lands on the prefix's space: the label is the digits followed directly by the command line |
| LabelFacts.CmdlineLabel | src/pmdas/linux_proc/proc_pid.c:176-238 | for any C int pid a non-empty command line gives the first 7 prefix characters followed by the fixed command line |
| LabelFacts.StatusName | src/pmdas/linux_proc/proc_pid.c:198-238 | an empty or unopenable command line and a status file whose first line is a 6-byte tag, the name and a newline give "%06d (name)" |
| LabelFacts.StatusNoNewline | src/pmdas/linux_proc/proc_pid.c:219-238 | a short status read without a newline is closed at index k: the name is cut at bytes 6..k-2 |
| LabelFacts.NamedLine | src/pmdas/linux_proc/proc_pid.c:222-227 | the name line closes into "%06d (name)" on any buffer |
| LabelFacts.ExitingOnReadError | src/pmdas/linux_proc/proc_pid.c:177-236 | a command line that opens but whose read fails gives "%06d <exiting>" without trying the status file |
| LabelFacts.ExitingOnNoName | src/pmdas/linux_proc/proc_pid.c:198-236 | an empty or unopenable command line and an empty or unreadable status file give "%06d <exiting>" |
| PidWalk.LabelStep | src/pmdas/linux_proc/proc_pid.c:176-238 | one label step is defined exactly when the ladder's label is, and then gives what BuildLabel returns and leaves in the array; the label is the C string of that buffer; a non-empty command line gives the prefix and the command text, and a failed command line read, or no command line and no status name, gives the exiting sentinel |
| PidWalk.Rungs | src/pmdas/linux_proc/proc_pid.c:176-238 | the ladder stops at the command line when it gives bytes, and at the exiting sentinel when the command line read fails or neither file gives a name |
| PidWalk.StepExists | src/pmdas/linux_proc/proc_pid.c:176-238 | the cmdline and status files always give a label step pinned to the ladder, so the step the refresh requires can always be supplied |
| PidWalk.Walk | src/pmdas/linux_proc/proc_pid.c:166-242 | the walk labels exactly the listed pids that were not cached, each once |
| PidWalk.WalkPrefix | src/pmdas/linux_proc/proc_pid.c:166 | a walk through the whole list is defined on every prefix |
| PidWalk.WalkAllKnown | src/pmdas/linux_proc/proc_pid.c:166-252 | a list of cached pids builds no label and leaves the buffer as it was |
| PidWalk.WalkSkips | src/pmdas/linux_proc/proc_pid.c:243-244 | a pid already in the table, cached or met earlier in the list, changes neither labels nor buffer |
| PidWalk.WalkLabels | src/pmdas/linux_proc/proc_pid.c:168-240 | a new pid's label is the label step on the buffer the previous pids left |
| PidWalk.LabelNew | src/pmdas/linux_proc/proc_pid.c:168-240 | the label built in the shared array is the walk's next label, and the array holds the walk's next buffer |
| Cgroup.Contribution | src/pmdas/linux_proc/proc_pid.c:759-762 | a line contributes one group exactly when it holds a ':' |
| Cgroup.Reformat | src/pmdas/linux_proc/proc_pid.c:750-770 | the imperative reformat of the first len bytes is the reference: the text after the first ':' of each newline-ended line of the C string, joined by ';' |
| Cgroup.ReformatLines | src/pmdas/linux_proc/proc_pid.c:756-768 | complete lines contribute their groups and an unterminated last line contributes nothing |
| Cgroup.ReformatStopsAtNul | src/pmdas/linux_proc/proc_pid.c:757-758 | input after a NUL is ignored |
| Cgroup.ReformatTwoGroups | src/pmdas/linux_proc/proc_pid.c:742-748 | two lines `id:group` give the two groups joined by ';', as in "2:cpu:/\n1:cpuset:/\n" to "cpu:/;cpuset:/" |
| Cgroup.ReformatEmptyFirstGroup | src/pmdas/linux_proc/proc_pid.c:763-764 | an empty first group leaves the output empty, so the next group is not preceded by ';' |
| Cgroup.ReformatPlainJoin | src/pmdas/linux_proc/proc_pid.c:750-770 | with no empty group the output is the groups joined by ';' |
| Cgroup.JoinGroupsPlain | src/pmdas/linux_proc/proc_pid.c:763-767 | non-empty groups are joined with a ';' between each pair |
| Cgroup.CompleteLinesUnlines | src/pmdas/linux_proc/proc_pid.c:761 | text made of newline-ended lines splits back into those lines |
| Field.DropWord | src/pmdas/linux_proc/proc_pid.c:880 | skipping to the next space leaves a suffix that is empty or starts with a space |
| Field.Token | src/pmdas/linux_proc/proc_pid.c:887-890 | the field is the longest space-free prefix |
| Field.SkipField | src/pmdas/linux_proc/proc_pid.c:879-883 | the two inner loops move p to the suffix the reference skip leaves |
| Field.FieldLength | src/pmdas/linux_proc/proc_pid.c:887-890 | the length loop stops at the end of the reference token |
| Field.FieldSpan | src/pmdas/linux_proc/proc_pid.c:878-890 | the bytes between the start and end the loops find are the reference field |
| Field.Scratch.constructor | src/pmdas/linux_proc/proc_pid.c:870-871 | the scratch buffer starts with no bytes |
| Field.Scratch.GetField | src/pmdas/linux_proc/proc_pid.c:867-900 | NULL for a NULL buffer; otherwise the reference field, NUL-terminated at the front of the scratch buffer, which grows to length+4 only when it cannot hold the field; later bytes are kept |
| Field.FieldsOfLayout | src/pmdas/linux_proc/proc_pid.c:862-899 | for words separated by runs of spaces, field k is word k, and it is empty past the last word |
| Field.LeadingSpaceField | src/pmdas/linux_proc/proc_pid.c:878-890 | text that starts with a space has an empty field 0 |
| Field.NegativeField | src/pmdas/linux_proc/proc_pid.c:878 | a negative field number is field 0 |
| LineScan.LineEnd | src/pmdas/linux_proc/proc_pid.c:446 | the end of the line at c: no newline before it, and a newline or the end of the text at it |
| LineScan.Next | src/pmdas/linux_proc/proc_pid.c:446 | strsep(&curline, "\n") advances the cursor strictly, within the text |
| LineScan.UidLine | src/pmdas/linux_proc/proc_pid.c:441-443 | the search for `Uid:` ends at or after its start, or gives None where `index()+1` would run off the text |
| LineScan.NlAt | src/pmdas/linux_proc/proc_pid.c:442 | index(curline, '\n') in the buffer is a newline from p on |
| LineScan.Strsep | src/pmdas/linux_proc/proc_pid.c:446 | strsep moves the cursor to the next line and cuts the taken line with a NUL, keeping the scan invariant |
| LineScan.NlAtText | src/pmdas/linux_proc/proc_pid.c:442 | index() over the partly cut buffer finds what Find finds in the text |
| LineScan.TagAtText | src/pmdas/linux_proc/proc_pid.c:441-467 | strncmp at the cursor over the partly cut buffer agrees with the tag test on the text |
| LineScan.FindUid | src/pmdas/linux_proc/proc_pid.c:441-443 | the `Uid:` loop stops where the reference search does |
| LineScan.VmStep | src/pmdas/linux_proc/proc_pid.c:450-465 | the VmSize block assigns the lines and moves the cursor as the reference VmBlock does |
| LineScan.RssSearch | src/pmdas/linux_proc/proc_pid.c:454-457 | the two possible skips before `VmRSS:` end where the reference does |
| LineScan.RssTest | src/pmdas/linux_proc/proc_pid.c:454-455 | one `VmRSS:` test stays on a matching line and otherwise moves to the start of the next line, keeping the scan invariant |
| LineScan.VmTail | src/pmdas/linux_proc/proc_pid.c:458-465 | vmrss through threads, with the VmPTE line skipped, are the reference lines |
| LineScan.VmSwap | src/pmdas/linux_proc/proc_pid.c:463-465 | vmswap and threads are the two lines after VmPTE |
| LineScan.SigStep | src/pmdas/linux_proc/proc_pid.c:467-473 | the SigPnd block assigns sigpnd..sigcgt as the reference does |
| LineScan.Turn | src/pmdas/linux_proc/proc_pid.c:449-476 | one turn of the scan loop preserves the reference scan result |
| LineScan.ScanLoop | src/pmdas/linux_proc/proc_pid.c:449-477 | the loop ends with the reference lines; only newlines are cut, and each pointer is kept or reads as its line |
| LineScan.ScanStatus | src/pmdas/linux_proc/proc_pid.c:437-477 | the status scan gives the reference line pointers, cuts only newlines to NULs, and each pointer is kept from before or reads as its line |
| LineScan.SplitIo | src/pmdas/linux_proc/proc_pid.c:687-696 | the io split gives the first seven line starts, only newlines are cut, and each pointer reads as its line |
| LineFacts.NextIsNextLine | src/pmdas/linux_proc/proc_pid.c:446 | strsep moves to the start of the next line, with no line start between, and gives NULL exactly on the last line |
| LineFacts.UidLineSound | src/pmdas/linux_proc/proc_pid.c:441-443 | the search stops at a line starting `Uid:`, and no earlier line starts so |
| LineFacts.UidLineComplete | src/pmdas/linux_proc/proc_pid.c:441-443 | if some line starts `Uid:`, the search succeeds at or before it |
| LineFacts.StatusScanLines | src/pmdas/linux_proc/proc_pid.c:441-447 | uid is the first `Uid:` line and gid the line after it |
| LineFacts.VmBlockLayout | src/pmdas/linux_proc/proc_pid.c:450-465 | the VmSize block's lines are the VmSize and the next lines, at most two skips before VmRSS, then the fixed order and one skip before vmswap |
| LineFacts.TagsDiffer | src/pmdas/linux_proc/proc_pid.c:450-467 | a `SigPnd:` line is never taken for a `VmSize:` line |
| LineFacts.ScanFromAtLines | src/pmdas/linux_proc/proc_pid.c:449-477 | the loop keeps uid and gid, and every pointer it sets is a line start |
| LineFacts.SigPndReached | src/pmdas/linux_proc/proc_pid.c:449-476 | without a VmSize block, the loop reaches the first `SigPnd:` line and ends there |
| LineFacts.NthLineIs | src/pmdas/linux_proc/proc_pid.c:690-696 | the k-th strsep on text made of lines is line k |
| LineFacts.IoSplitOfLines | src/pmdas/linux_proc/proc_pid.c:689-696 | for an io file of at least seven lines, rchar..cancel read as its first seven lines |
| ProcEntry.NewEntry | src/pmdas/linux_proc/proc_pid.c:171-174 | a new entry is zeroed: no buffer, no flag set, not valid, with the pid and label |
| ProcEntry.Reset | src/pmdas/linux_proc/proc_pid.c:150-158 | invalidation clears valid and the eight flags stat..fd, and keeps cgroup_fetched and label_fetched |
| ProcEntry.ResetKeeps | src/pmdas/linux_proc/proc_pid.c:147-160 | invalidation keeps every buffer, line pointer, count and interned id |
| ProcEntry.Terminated | src/pmdas/linux_proc/proc_pid.c:352 | the read bytes with byte n-1 replaced by NUL |
| ProcEntry.Refill | src/pmdas/linux_proc/proc_pid.c:347-352 | the buffer holds at least n bytes and grows to n only when buflen <= n |
| ProcEntry.RefillBytes | src/pmdas/linux_proc/proc_pid.c:347-352 | the first n bytes are the read bytes NUL-terminated at n-1, and the rest are kept |
| ProcEntry.Refit | src/pmdas/linux_proc/proc_pid.c:423-429 | the status/io buffer grows only when buflen < n, and it is NULL exactly when that realloc fails or it was NULL |
| ProcEntry.RefitBytes | src/pmdas/linux_proc/proc_pid.c:431-432 | a non-NULL status/io buffer holds the read bytes NUL-terminated at n-1 |
| ProcEntry.MapsFill | src/pmdas/linux_proc/proc_pid.c:565-580 | after the read loop, maps holds all bytes read at the front and a NUL at maps_buflen-1, not at len |
| ProcEntry.ReadMaps | src/pmdas/linux_proc/proc_pid.c:565-580 | the imperative read loop, realloc and terminator give MapsFill of the chunks read |
| ProcEntry.Load | src/pmdas/linux_proc/proc_pid.c:337-354 | a stat-like read fills the buffer exactly when the file opens and gives at least one byte |
| ProcEntry.StatBlock | src/pmdas/linux_proc/proc_pid.c:335-359 | the stat block sets stat_fetched, gives a status <= 0, and does nothing when the flag was set |
| ProcEntry.WchanLoad | src/pmdas/linux_proc/proc_pid.c:363-381 | the wchan read of at most 1023 bytes is stored with one byte more |
| ProcEntry.WchanBlock | src/pmdas/linux_proc/proc_pid.c:361-386 | the wchan block sets wchan_fetched, and keeps the entry and status when the flag was set |
| ProcEntry.StatFetch | src/pmdas/linux_proc/proc_pid.c:321-391 | fetch_proc_pid_stat sets both flags and keeps the entry well formed |
| ProcEntry.StatmFetch | src/pmdas/linux_proc/proc_pid.c:493-535 | statm_fetched is always set; a set flag returns the entry unchanged; the result is found exactly when the flag was set or the read gives bytes; a first fetch refills the buffer with the read exactly when it gives bytes, and leaves it as it was otherwise |
| ProcEntry.SchedstatFetch | src/pmdas/linux_proc/proc_pid.c:593-636 | a set flag returns the entry unchanged; schedstat_fetched is set exactly when it was set or the file opened; the result is found exactly when the flag was set or the read gives bytes; a first fetch refills the buffer with the read exactly when it gives bytes |
| ProcEntry.LoadFit | src/pmdas/linux_proc/proc_pid.c:415-434 | the status/io read fills the buffer exactly when the file gives bytes, and a filled buffer holds a NUL |
| ProcEntry.StatusStep | src/pmdas/linux_proc/proc_pid.c:408-486 | status_fetched is always set; the step is a cache hit exactly when it was set, and the scan runs on a buffer holding a NUL |
| ProcEntry.IoStep | src/pmdas/linux_proc/proc_pid.c:658-698 | io_fetched is set exactly when the step does not fail; it is a cache hit exactly when it was set |
| ProcEntry.MapsFetch | src/pmdas/linux_proc/proc_pid.c:543-588 | a set flag returns the entry unchanged; maps_fetched follows the result, which is found exactly when the flag was set or the file opened; a first fetch fills maps from the chunks read by MapsFill, and leaves it as it was when the file does not open |
| ProcEntry.U32 | src/pmdas/linux_proc/proc_pid.c:721-735 | a uint32_t value wraps modulo 2^32 |
| ProcEntry.CountEntries | src/pmdas/linux_proc/proc_pid.c:731-733 | the readdir loop counts the entries modulo 2^32 |
| ProcEntry.FdFetch | src/pmdas/linux_proc/proc_pid.c:709-740 | the result is found exactly when fd_fetched was set or the directory opened, and fd_fetched follows it |
| ProcEntry.IndexOf | src/pmdas/linux_proc/proc_pid.c:801 | the identifier of a string is its first position in the table |
| ProcEntry.Intern | src/pmdas/linux_proc/proc_pid.c:801 | proc_strings_insert: the identifier names the string in the new table, which gains the string only when it is new |
| ProcEntry.CgroupFetch | src/pmdas/linux_proc/proc_pid.c:775-816 | a set flag returns entry and table unchanged; the result is found exactly when the flag was set or the read gives bytes, and otherwise nothing changes; cgroup_fetched follows the result; the table only grows; a new fetch interns the reformatted read and keeps its identifier |
| ProcEntry.AttrPathWidth | src/pmdas/linux_proc/proc_pid.c:835 | the attr/current path fits the stack buffer |
| ProcEntry.AttrText | src/pmdas/linux_proc/proc_pid.c:835-845 | the string interned for the label is NUL-free and shorter than the buffer |
| ProcEntry.LabelFetch | src/pmdas/linux_proc/proc_pid.c:821-860 | a set flag returns entry and table unchanged; the fetch is undefined exactly when a first read gives bytes whose C string runs off the stack buffer; a read without bytes changes nothing; a new fetch interns AttrText of the read, and the identifier names that text in the new table; label_fetched follows the result |
| EntryFacts.FetchedEntryIsReturned | src/pmdas/linux_proc/proc_pid.c:321-860 | once every flag is set, every fetcher returns the entry unchanged and reads nothing |
| EntryFacts.StatKeeps | src/pmdas/linux_proc/proc_pid.c:321-391 | fetch_proc_pid_stat changes no field of the entry but the stat and wchan flags and buffers |
| EntryFacts.StatBlockFirst | src/pmdas/linux_proc/proc_pid.c:335-359 | a first stat block sets stat_fetched, refills the stat buffer with status 0 when the read gives bytes, and otherwise changes only the flag with status -1 |
| EntryFacts.StatBlockKeeps | src/pmdas/linux_proc/proc_pid.c:335-359 | the stat block changes no field but stat_fetched and the stat buffer |
| EntryFacts.WchanBlockFirst | src/pmdas/linux_proc/proc_pid.c:361-386 | a first wchan block sets wchan_fetched and refills the wchan buffer with the read and a NUL; without bytes it changes only the flag, with status 0 for an open failure and -1 otherwise |
| EntryFacts.WchanBlockKeeps | src/pmdas/linux_proc/proc_pid.c:361-386 | the wchan block changes no field but wchan_fetched and the wchan buffer |
| EntryFacts.StatmFirst | src/pmdas/linux_proc/proc_pid.c:506-530 | a first statm fetch sets the flag and refills the buffer when the read gives bytes, and otherwise changes only the flag |
| EntryFacts.StatmKeeps | src/pmdas/linux_proc/proc_pid.c:506-530 | the statm fetch changes no field but statm_fetched and the statm buffer |
| EntryFacts.SchedstatFirst | src/pmdas/linux_proc/proc_pid.c:607-632 | a first schedstat fetch sets the flag and refills the buffer when the read gives bytes; otherwise it changes only the flag, set unless the open failed |
| EntryFacts.SchedstatKeeps | src/pmdas/linux_proc/proc_pid.c:607-632 | the schedstat fetch changes no field but schedstat_fetched and the schedstat buffer |
| EntryFacts.StatusFirst | src/pmdas/linux_proc/proc_pid.c:408-486 | a first status fetch sets the flag and refits the buffer, scanning unless the allocation failed; without bytes it changes only the flag |
| EntryFacts.StatusKeeps | src/pmdas/linux_proc/proc_pid.c:408-486 | the status step changes no field but status_fetched and the status buffer |
| EntryFacts.IoFirst | src/pmdas/linux_proc/proc_pid.c:658-698 | a first io fetch refits the buffer, and sets the flag and splits exactly when the allocation did not fail; without bytes nothing changes |
| EntryFacts.IoKeeps | src/pmdas/linux_proc/proc_pid.c:658-698 | the io step changes no field but io_fetched and the io buffer |
| EntryFacts.MapsFirst | src/pmdas/linux_proc/proc_pid.c:560-580 | a first maps fetch sets the flag and fills maps from the chunks when the file opens, and otherwise changes nothing |
| EntryFacts.MapsKeeps | src/pmdas/linux_proc/proc_pid.c:560-580 | the maps fetch changes no field but maps_fetched and the maps buffer |
| EntryFacts.FdFirst | src/pmdas/linux_proc/proc_pid.c:719-737 | a first fd fetch sets the flag and fd_count to the entry count minus 2 modulo 2^32 when the directory opens, and otherwise changes nothing |
| EntryFacts.FdKeeps | src/pmdas/linux_proc/proc_pid.c:719-737 | the fd fetch changes no field but fd_fetched and fd_count |
| EntryFacts.CgroupFirst | src/pmdas/linux_proc/proc_pid.c:785-813 | a first cgroup fetch sets the flag and the identifier of the interned reformatted read when the read gives bytes, and otherwise changes nothing |
| EntryFacts.CgroupKeeps | src/pmdas/linux_proc/proc_pid.c:785-813 | the cgroup fetch changes no field but cgroup_fetched and the cgroup identifier |
| EntryFacts.LabelFirst | src/pmdas/linux_proc/proc_pid.c:831-857 | a first label fetch changes nothing without bytes, is undefined when the text runs off the stack buffer, and otherwise sets the flag and the identifier of the interned text |
| EntryFacts.LabelKeeps | src/pmdas/linux_proc/proc_pid.c:831-857 | the label fetch changes no field but label_fetched and the label identifier |
| EntryFacts.StatGrows | src/pmdas/linux_proc/proc_pid.c:347-376 | the stat fetch never shrinks a buffer |
| EntryFacts.StatmGrows | src/pmdas/linux_proc/proc_pid.c:518-521 | the statm fetch never shrinks a buffer |
| EntryFacts.SchedstatGrows | src/pmdas/linux_proc/proc_pid.c:619-622 | the schedstat fetch never shrinks a buffer |
| EntryFacts.StepsGrow | src/pmdas/linux_proc/proc_pid.c:423-676 | the status and io fetches never shrink a buffer |
| EntryFacts.MapsGrows | src/pmdas/linux_proc/proc_pid.c:567-579 | the maps fetch never shrinks a buffer |
| EntryFacts.StatResult | src/pmdas/linux_proc/proc_pid.c:335-390 | when wchan is fetched, its outcome alone decides the stat result, so a failed stat read can still return the entry; otherwise the stat outcome decides |
| EntryFacts.StatBlockResult | src/pmdas/linux_proc/proc_pid.c:335-359 | the stat block's status is 0 for a cache hit or a non-empty read, and -1 otherwise |
| EntryFacts.WchanBlockResult | src/pmdas/linux_proc/proc_pid.c:361-386 | a wchan open failure is status 0, a non-empty read 0, anything else -1, and a cache hit keeps the stat status |
| EntryFacts.StatText | src/pmdas/linux_proc/proc_pid.c:347-352 | after a fresh stat read the buffer's C string is the read bytes without the last one |
| EntryFacts.WchanText | src/pmdas/linux_proc/proc_pid.c:373-379 | after a fresh wchan read the buffer's C string is all the bytes read |
| EntryFacts.StatBlockKeepsWchan | src/pmdas/linux_proc/proc_pid.c:335-359 | the stat block does not touch wchan |
| EntryFacts.RefillKeepsTail | src/pmdas/linux_proc/proc_pid.c:347-352 | a shorter read keeps the buffer's length and the old bytes after it |
| EntryFacts.StatmResult | src/pmdas/linux_proc/proc_pid.c:506-534 | statm returns the entry exactly when it was fetched or the read gives bytes |
| EntryFacts.StatmFailsOnce | src/pmdas/linux_proc/proc_pid.c:529 | after a failed statm fetch a repeat call returns the entry without reading |
| EntryFacts.StatmText | src/pmdas/linux_proc/proc_pid.c:518-523 | after a fresh statm read the buffer's C string is the read bytes without the last one |
| EntryFacts.SchedstatText | src/pmdas/linux_proc/proc_pid.c:619-624 | after a fresh schedstat read the buffer's C string is the read bytes without the last one |
| EntryFacts.SchedstatRetry | src/pmdas/linux_proc/proc_pid.c:607-635 | an open failure leaves schedstat unfetched so it is retried; any open leaves it fetched |
| EntryFacts.StatusScans | src/pmdas/linux_proc/proc_pid.c:408-437 | the status scan runs exactly when the entry was not fetched and the read gave bytes |
| EntryFacts.StatusText | src/pmdas/linux_proc/proc_pid.c:431-432 | the scanned status text is the read bytes without the last one |
| EntryFacts.IoScans | src/pmdas/linux_proc/proc_pid.c:658-698 | the io split runs exactly when the entry was not fetched and the read gave bytes; a failure leaves io unfetched |
| EntryFacts.MapsExact | src/pmdas/linux_proc/proc_pid.c:565-580 | when the maps buffer had to grow, it holds the bytes read and one NUL |
| EntryFacts.MapsStale | src/pmdas/linux_proc/proc_pid.c:567-580 | when a reread is shorter than the buffer, the maps text runs on into the previous contents |
| EntryFacts.FdCount | src/pmdas/linux_proc/proc_pid.c:731-735 | fd_count is the entry count minus 2 modulo 2^32, and exactly that for at least two entries |
| EntryFacts.InternDistinct | src/pmdas/linux_proc/proc_pid.c:801 | interning keeps the string table free of repeats |
| EntryFacts.InternInjective | src/pmdas/linux_proc/proc_pid.c:801 | two strings get the same identifier exactly when they are equal |
| EntryFacts.IndexOfDistinct | src/pmdas/linux_proc/proc_pid.c:801 | in a table without repeats each position is its string's identifier |
| EntryFacts.CgroupOncePerEntry | src/pmdas/linux_proc/proc_pid.c:785-813 | once the cgroup is fetched, invalidation does not clear it and a later fetch reads nothing |
| EntryFacts.LabelOncePerEntry | src/pmdas/linux_proc/proc_pid.c:831-857 | once the label is fetched, invalidation does not clear it and a later fetch reads nothing |
| EntryFacts.LabelUpToNul | src/pmdas/linux_proc/proc_pid.c:838-845 | a label read holding a NUL is interned up to that NUL |
| EntryFacts.LabelKeepsPathTail | src/pmdas/linux_proc/proc_pid.c:835-845 | a NUL-free label read no longer than the path is interned with the rest of the path string after it |
| ProcCache.ResizeSlots | src/pmdas/linux_proc/proc_pid.c:139-141 | realloc of it_set keeps the slots that fit and has exactly n of them |
| ProcCache.Pick | src/pmdas/linux_proc/proc_pid.c:147-148 | the bucket walk visits some key not yet visited |
| ProcCache.KeepSome | src/pmdas/linux_proc/proc_pid.c:257-295 | part way through the harvest exactly the unvisited and valid entries remain, unchanged |
| ProcCache.Mark | src/pmdas/linux_proc/proc_pid.c:247 | marking sets valid and keeps the pid and name |
| ProcCache.Fresh | src/pmdas/linux_proc/proc_pid.c:171-247 | a new entry is valid with its pid and label |
| ProcCache.ListedOld | src/pmdas/linux_proc/proc_pid.c:243-247 | marking a pid already in the table is the next step of the walk's table |
| ProcCache.ListedNew | src/pmdas/linux_proc/proc_pid.c:238-247 | adding a new pid's entry is the next step of the walk's table |
| ProcCache.VisitOld | src/pmdas/linux_proc/proc_pid.c:243-247 | a pid already in the table advances the walk with nothing built |
| ProcCache.PublishNext | src/pmdas/linux_proc/proc_pid.c:250-251 | writing slot i keeps slots 0..i-1 naming their pids |
| ProcCache.ListOld | src/pmdas/linux_proc/proc_pid.c:243-251 | one turn for a pid in the table keeps the loop invariant |
| ProcCache.ListNew | src/pmdas/linux_proc/proc_pid.c:168-251 | one turn for a new pid builds its label on the buffer and keeps the loop invariant |
| ProcCache.ListOne | src/pmdas/linux_proc/proc_pid.c:166-252 | one turn of the walk keeps the loop invariant |
| ProcCache.ListAll | src/pmdas/linux_proc/proc_pid.c:166-252 | the walk's loop ends with the reference labels and buffer; every listed pid is marked or added, and slot i names pid i with its entry's name |
| ProcCache.Survivors | src/pmdas/linux_proc/proc_pid.c:147-295 | after invalidate, walk and harvest the table holds exactly the listed pids, the cached ones reset and valid, and the new ones with their labels |
| ProcCache.RefreshAgain | src/pmdas/linux_proc/proc_pid.c:166-168 | refreshing again with the same list builds no label and leaves the buffer as it was |
| ProcCache.LabelDistinct | src/pmdas/linux_proc/proc_pid.c:845 | the label fetch keeps the entry's pid and a string table without repeats |
| ProcCache.ProcPid.constructor | src/pmdas/linux_proc/proc_pid.c:129-142 | the cache starts with no entry, no instance and no string |
| ProcCache.ProcPid.Invalidate | src/pmdas/linux_proc/proc_pid.c:147-160 | every entry is reset, and none is added or removed |
| ProcCache.ProcPid.AddListed | src/pmdas/linux_proc/proc_pid.c:166-252 | the walk adds the new pids with its labels, marks the listed ones, and slot i names pid i with its entry's name |
| ProcCache.ProcPid.Harvest | src/pmdas/linux_proc/proc_pid.c:257-295 | exactly the invalid entries are dropped, and the others are kept as they are |
| ProcCache.ProcPid.RefreshPidlist | src/pmdas/linux_proc/proc_pid.c:128-298 | the table holds exactly the listed pids, cached entries reset and valid with their names kept, new labels built only for new pids; it_numinst is the list length and slot i is (pid i, its name); returns the count |
| ProcCache.ProcPid.RefreshProcPid | src/pmdas/linux_proc/proc_pid.c:300-315 | the cgroup list when a cgroup is named, otherwise the sorted /proc list; an unopenable /proc is a negative status with nothing changed; otherwise the list is reconciled as RefreshPidlist says |
| ProcCache.ProcPid.FetchStat | src/pmdas/linux_proc/proc_pid.c:321-391 | NULL and no change for an id not cached; otherwise the entry becomes StatFetch's and the result is its outcome |
| ProcCache.ProcPid.FetchStatus | src/pmdas/linux_proc/proc_pid.c:397-487 | NULL and no change for an id not cached; otherwise the status step, then on a fresh read the scan with its line pointers and cuts; the result is whether the step failed |
| ProcCache.ProcPid.FetchStatm | src/pmdas/linux_proc/proc_pid.c:492-535 | NULL and no change for an id not cached; otherwise StatmFetch |
| ProcCache.ProcPid.FetchMaps | src/pmdas/linux_proc/proc_pid.c:543-588 | NULL and no change for an id not cached; otherwise the read loop gives MapsFetch's entry and outcome |
| ProcCache.ProcPid.FetchSchedstat | src/pmdas/linux_proc/proc_pid.c:593-636 | NULL and no change for an id not cached; otherwise SchedstatFetch |
| ProcCache.ProcPid.FetchIo | src/pmdas/linux_proc/proc_pid.c:647-704 | NULL and no change for an id not cached; otherwise the io step, then on a fresh read the seven-line split; the result is whether the step failed |
| ProcCache.ProcPid.FetchFd | src/pmdas/linux_proc/proc_pid.c:709-740 | NULL and no change for an id not cached; otherwise the counting loop gives FdFetch's entry and outcome |
| ProcCache.ProcPid.FetchCgroup | src/pmdas/linux_proc/proc_pid.c:775-816 | NULL and no change for an id not cached; otherwise the imperative reformat and interning give CgroupFetch's entry, table and outcome |
| ProcCache.ProcPid.FetchLabel | src/pmdas/linux_proc/proc_pid.c:821-860 | NULL and no change for an id not cached; otherwise LabelFetch's entry, table and outcome |

## Left out

- System calls are inputs. The open, read, opendir, readdir, fopen, fscanf and close calls are not modelled. A file is a `Read`, a directory a sequence of names (or None), and a membership file the integers fscanf(3) would read.
- The `__pmHash*` library is a `map<int, Entry>`. Bucket order and the `prev`/`next` unlinking of the harvest are not modelled. The loops visit the keys in an arbitrary order, which the results do not depend on.
- Memory is not modelled. That includes malloc/realloc failure, except the NULL checks of the status and io buffers (the `allocOk` input). It also includes the pid array's realloc failure and `free`. `strdup(3)` cannot fail in the model.
- `oserror()` codes are modelled as a generic negative status. `perror` and the `pmDebug` tracing are not modelled.
- `proc_strings_insert` is modelled as a table of strings in `ProcPid`, instead of an abstract injective function. An identifier is a string's index in the table. `EntryFacts.InternInjective` proves the injectivity the abstract function would assume. The string store's own source is not part of this model.
- A NULL `cgroups` argument to `refresh_proc_pid` is modelled as the empty string.
- `src/pmdas/cluster/cluster.h` is not modelled. It holds protocol constants, extern declarations and socket wrappers.
- CString.Atoi: reads the digits as an unbounded integer, so atoi(3) on a value outside the C int range is not modelled. Callers require listed pids to fit a C int.
- PidList.CgroupPath: uses the whole cgroup string, so a NUL inside it after index 0 does not end it as it would for `%s`. The truncation of `snprintf` to `MAXPATHLEN` bytes (proc_pid.c:90-93) is not modelled.
- PidList.ComparePid: computes `a - b` on unbounded integers. C's int subtraction could overflow for operands far apart, but pids are non-negative, so it does not.
- ProcCache.ProcPid.RefreshPidlist: requires every listed pid to fit a C int. It also requires the label ladder to be defined for every new pid. Otherwise strchr(3) or strdup(3) would run past the stack buffer into bytes the model does not know.
- ProcCache.ProcPid.RefreshProcPid: has the same requirement, for the list it builds.
- Label.BuildLabel: requires the ladder to be defined on the given buffer, for the same reason.
- PidWalk.LabelNew: requires the ladder to be defined on the given buffer, for the same reason.
- ProcCache.ProcPid.FetchStatus: requires the status scan to be defined on the buffer. The source runs `index()+1` off the buffer when there is no `Uid:` line. It does the same when a line the scan must pass has no newline.
- ProcCache.ProcPid.FetchLabel: requires the label's C string to end inside the 1024-byte stack buffer. The read is not NUL-terminated.
- ProcCache.ProcPid.FetchMaps: takes the maps read loop as the sequence of non-empty chunks it gets. A read error in the middle of the loop ends it like end of file, as in the source.
- The label step of the walk is a ghost parameter pinned to the ladder by `PidWalk.Labels`; `PidWalk.StepExists` shows one always exists. The walk itself is stated over any step.
