/**
 * The outside world as the rule engine sees it.  Everything here is given,
 * not modelled: the platform strings, process lookup, path expansion and
 * globbing, the filesystem queries, the regular-expression engine, the XML
 * parser and the installation's cleaner directories.
 */
module Host {
  import opened Base
  import Xml

  datatype Host = Host(
    osName: string,                                // os.name: "posix", "nt", ...
    platform: string,                              // sys.platform: "linux2", "darwin", "win32", ...
    haveGtk: bool,                                 // whether `import gtk` succeeded (HAVE_GTK)
    processRunning: string -> bool,                // Unix.is_running / Windows.is_process_running
    expandPath: string -> string,                  // expanduser(expandvars(p))
    expandUser: string -> string,                  // expanduser(p)
    glob: string -> seq<string>,                   // glob.iglob(p), drained
    pathExists: string -> bool,                    // os.path.exists(p)
    expandGlobJoin: (string, string) -> seq<string>, // FileUtilities.expand_glob_join(p, suffix)
    isAbs: string -> bool,                         // os.path.isabs(p)
    absPath: string -> string,                     // os.path.abspath(p)
    isDir: string -> bool,                         // os.path.isdir(p)
    childrenInDirectory: string -> seq<string>,    // children_in_directory(p, True), drained
    listdir: seq<string> -> seq<string>,           // FileUtilities.listdir(dirs): full paths of the entries
    fileMode: string -> Result<nat>,               // os.stat(p)[stat.ST_MODE], or the OSError it raises
    regexMatch: (string, string) -> bool,          // re.compile(pattern).match(path) is not None
    parseXml: string -> Result<Xml.Node>,          // xml.dom.minidom.parse(path): the document node
    personalCleanersDir: string,                   // bleachbit.personal_cleaners_dir
    localCleanersDir: Option<string>,              // bleachbit.local_cleaners_dir (None once installed)
    systemCleanersDir: Option<string>              // bleachbit.system_cleaners_dir
  )
}
