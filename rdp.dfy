/** vcl_client/connect_methods/rdp.py: the Remote Desktop connection method.
    The home directory is a map from file name to contents; `rm -f` and the
    `remmina` launch act on it and on a record of launched commands. */
module Rdp {
  import opened Base

  const LAUNCH_COMMAND := "remmina -c "
  const PROFILE_PREFIX := ".vcl_"
  const PROFILE_SUFFIX := ".remmina"

  function Unsupported(hostOs: string): string {
    "RDP not supported on OS: '" + hostOs + "'"
  }

  /** `%s` of the password shown in the launch question. */
  function Shown(password: Option<string>): string {
    if password.None? then "None" else password.value
  }

  function LaunchQuestion(password: Option<string>): string {
    "Login password is: " + Shown(password) + "  Ready to start RDP connection?"
  }

  /** The lines of the Remmina profile template with its address and user
      filled in; the template has no password placeholder. */
  function ProfileLines(ip: string, user: string): seq<string> {
    ["[remmina]", "sound=off", "sharefolder=", "name=VCL", "cert_ignore=0", "console=0",
     "ssh_enabled=0", "exec=", "clientname=", "colordepth=32", "server=" + ip, "ssh_auth=0",
     "group=", "sharesmartcard=0", "quality=0", "username=" + user, "ssh_charset=",
     "ssh_loopback=0", "password=", "ssh_username=", "gateway_server=",
     "disablepasswordstoring=0", "execpath=", "gateway_usage=0", "resolution=", "security=",
     "domain=", "precommand=", "ssh_server=", "shareprinter=0", "protocol=RDP",
     "disableclipboard=0", "ssh_privatekey=", "window_maximize=1", "viewmode=1"]
  }

  function JoinLines(lines: seq<string>): string {
    if lines == [] then "" else lines[0] + "\n" + JoinLines(lines[1..])
  }

  /** REMMINA_FILE.format(ip_addr=..., user=..., password=...): the text starts
      with an empty line and ends with a newline. */
  function Profile(ip: string, user: string): string {
    "\n" + JoinLines(ProfileLines(ip, user))
  }

  /** The profile names the address and the user, the protocol is RDP and the
      password line stays blank. */
  lemma ProfileFields(ip: string, user: string)
    ensures "server=" + ip in ProfileLines(ip, user)
    ensures "username=" + user in ProfileLines(ip, user)
    ensures "protocol=RDP" in ProfileLines(ip, user)
    ensures "password=" in ProfileLines(ip, user)
  {
    var ls := ProfileLines(ip, user);
    assert ls[10] == "server=" + ip && ls[15] == "username=" + user;
    assert ls[18] == "password=" && ls[30] == "protocol=RDP";
  }

  /** Does a file name match the glob `.vcl_*.remmina`? */
  predicate IsProfileName(name: string) {
    |name| >= |PROFILE_PREFIX| + |PROFILE_SUFFIX| && StartsWith(name, PROFILE_PREFIX) && EndsWith(name, PROFILE_SUFFIX)
  }

  /** `.vcl_<request id>.remmina` */
  function ProfileName(requestId: string): (n: string)
    ensures IsProfileName(n)
  {
    var n := PROFILE_PREFIX + requestId + PROFILE_SUFFIX;
    assert n[..|PROFILE_PREFIX|] == PROFILE_PREFIX;
    assert n[|n| - |PROFILE_SUFFIX|..] == PROFILE_SUFFIX;
    n
  }

  /** The profiles among the files. */
  function Profiles(files: map<string, string>): set<string> {
    set n | n in files && IsProfileName(n)
  }

  /** `rm -f ~/.vcl_*.remmina`: every profile goes, whatever request it was for;
      every other file stays as it was. */
  function WithoutProfiles(files: map<string, string>): (r: map<string, string>)
    ensures Profiles(r) == {}
    ensures forall n :: n in files && !IsProfileName(n) ==> n in r && r[n] == files[n]
    ensures forall n :: n in r ==> n in files
  {
    map n | n in files && !IsProfileName(n) :: files[n]
  }

  /** The home directory after handle_rdp: cleaned, then on Linux the new
      profile written. */
  function RdpFiles(files: map<string, string>, requestId: string, ip: string, user: string, hostOs: string)
    : map<string, string>
  {
    var cleaned := WithoutProfiles(files);
    if hostOs == "Linux" then cleaned[ProfileName(requestId) := Profile(ip, user)] else cleaned
  }

  /** After a successful write exactly one profile exists: this request's,
      holding the profile text. */
  lemma OneProfileAfterWrite(files: map<string, string>, requestId: string, ip: string, user: string)
    ensures Profiles(RdpFiles(files, requestId, ip, user, "Linux")) == {ProfileName(requestId)}
    ensures RdpFiles(files, requestId, ip, user, "Linux")[ProfileName(requestId)] == Profile(ip, user)
  {
    var cleaned := WithoutProfiles(files);
    var after := RdpFiles(files, requestId, ip, user, "Linux");
    forall n | n in after && IsProfileName(n) ensures n == ProfileName(requestId) {
      assert n !in Profiles(cleaned);
    }
  }

  /** On another OS no profile is left at all, though the clean step has run. */
  lemma NoProfileOffLinux(files: map<string, string>, requestId: string, ip: string, user: string, hostOs: string)
    requires hostOs != "Linux"
    ensures Profiles(RdpFiles(files, requestId, ip, user, hostOs)) == {}
  {
  }

  /** Entering handle_rdp again, for this request or another, leaves what a single
      run would have left: the earlier profile is gone. */
  lemma ReentryReplaces(files: map<string, string>, id1: string, ip1: string, user1: string,
                        id2: string, ip2: string, user2: string, hostOs: string)
    ensures RdpFiles(RdpFiles(files, id1, ip1, user1, hostOs), id2, ip2, user2, hostOs) ==
            RdpFiles(files, id2, ip2, user2, hostOs)
  {
    var once := RdpFiles(files, id1, ip1, user1, hostOs);
    assert WithoutProfiles(once) == WithoutProfiles(files);
  }

  /** The user's home directory as far as the RDP handler touches it. */
  class ProfileStore {
    const home: string
    var files: map<string, string>   // file name in the home directory -> contents
    var launched: seq<string>        // commands started with subprocess.Popen

    constructor (home: string, files: map<string, string>)
      ensures this.home == home && this.files == files && launched == []
    {
      this.home := home;
      this.files := files;
      launched := [];
    }

    /** os.path.expanduser('~/.vcl_<id>.remmina') */
    function PathOf(requestId: string): string {
      home + "/" + ProfileName(requestId)
    }

    /** clean_rdp_files */
    method CleanRdpFiles()
      modifies this`files
      ensures files == WithoutProfiles(old(files))
    {
      files := WithoutProfiles(files);
    }

    /** write_rdp_file: on Linux write the profile and return its path; the
        password is accepted but not written. Elsewhere nothing is written. */
    method WriteRdpFile(requestId: string, ip: string, user: string, password: Option<string>, hostOs: string)
      returns (r: Outcome<string>)
      modifies this`files
      ensures hostOs == "Linux" ==>
                r == Ok(PathOf(requestId)) && files == old(files)[ProfileName(requestId) := Profile(ip, user)]
      ensures hostOs != "Linux" ==>
                r == Raised(RuntimeError(Unsupported(hostOs))) && files == old(files)
    {
      if hostOs != "Linux" {
        return Raised(RuntimeError(Unsupported(hostOs)));
      }
      var contents := Profile(ip, user);
      var name := ProfileName(requestId);
      files := files[name := contents];
      r := Ok(home + "/" + name);
    }

    /** launch_rdp: ask first (showing the password); a refusal returns before
        the OS check; on Linux launch `remmina -c <path>`, elsewhere raise. */
    method LaunchRdp(path: string, password: Option<string>, confirmed: bool, hostOs: string)
      returns (r: Run<()>)
      modifies this`launched
      ensures r.events == [Confirm(LaunchQuestion(password))]
      ensures !confirmed ==> r.outcome == Ok(()) && launched == old(launched)
      ensures confirmed && hostOs == "Linux" ==> r.outcome == Ok(()) && launched == old(launched) + [LAUNCH_COMMAND + path]
      ensures confirmed && hostOs != "Linux" ==>
                r.outcome == Raised(RuntimeError(Unsupported(hostOs))) && launched == old(launched)
    {
      var events := [Confirm(LaunchQuestion(password))];
      if !confirmed {
        return Run(events, Ok(()));
      }
      if hostOs != "Linux" {
        return Run(events, Raised(RuntimeError(Unsupported(hostOs))));
      }
      launched := launched + [LAUNCH_COMMAND + path];
      r := Run(events, Ok(()));
    }

    /** handle_rdp: clean every profile, write this request's, launch it. */
    method HandleRdp(requestId: string, ip: string, user: string, password: Option<string>,
                     hostOs: string, confirmed: bool)
      returns (r: Run<()>)
      modifies this`files, this`launched
      ensures files == RdpFiles(old(files), requestId, ip, user, hostOs)
      ensures hostOs != "Linux" ==>
                r == Run([], Raised(RuntimeError(Unsupported(hostOs)))) && launched == old(launched)
      ensures hostOs == "Linux" ==>
                r == Run([Confirm(LaunchQuestion(password))], Ok(())) &&
                launched == old(launched) + (if confirmed then [LAUNCH_COMMAND + PathOf(requestId)] else [])
    {
      CleanRdpFiles();
      var path := WriteRdpFile(requestId, ip, user, password, hostOs);
      if !path.Ok? {
        return Run([], Raised(path.exc));
      }
      r := LaunchRdp(path.value, password, confirmed, hostOs);
    }
  }
}
