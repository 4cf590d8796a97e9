/** The control side of the window: the two service sections and the power
    profile card, as `update_service_statuses` leaves them after each
    refresh. The three external calls it makes (two `systemctl is-active`
    and `sudo ryzenadj --info`) are inputs. */
module Panel {
  import opened Wrappers
  import opened Text
  import opened Process
  import opened Widgets
  import opened Services
  import opened Profile

  /** What the "Current Profile" label shows: its initial text, or the
      classified profile with the fast and slow limits it was read from. */
  datatype ProfileLabel = ProfileUnknown | ProfileShown(profile: PowerProfile, fast: real, slow: real)

  /** The widgets `update_service_statuses` configures. */
  class ControlPanel {
    var clevoStatus: Label
    var clevoStart: ButtonState
    var clevoStop: ButtonState
    var cpufreqStatus: Label
    var cpufreqStart: ButtonState
    var cpufreqStop: ButtonState
    var profileStatus: ProfileLabel
    var batteryButton: ButtonState
    var quietButton: ButtonState
    var perfButton: ButtonState

    function ClevoView(): ServiceView
      reads this
    {
      ServiceView(clevoStatus, clevoStart, clevoStop)
    }

    function CpufreqView(): ServiceView
      reads this
    {
      ServiceView(cpufreqStatus, cpufreqStart, cpufreqStop)
    }

    function ProfileButtonStates(): (ButtonState, ButtonState, ButtonState)
      reads this
    {
      (batteryButton, quietButton, perfButton)
    }

    /** What the window can show: each service section as built or as one
        status check left it; the profile card either untouched (all three
        buttons enabled) or showing a profile that matches the fast limit
        on display, with exactly that profile's button disabled. */
    ghost predicate Valid()
      reads this
    {
      && Settled(ClevoFanControl, ClevoView())
      && Settled(AutoCpuFreq, CpufreqView())
      && match profileStatus
         case ProfileUnknown => ProfileButtonStates() == (Normal, Normal, Normal)
         case ProfileShown(p, fast, _) =>
           p == Classify(fast) && ProfileButtonStates() == ProfileButtons(p)
    }

    /** The widgets as `create_ui` builds them. */
    constructor ()
      ensures Valid()
      ensures ClevoView() == InitialView(ClevoFanControl)
      ensures CpufreqView() == InitialView(AutoCpuFreq)
      ensures profileStatus == ProfileUnknown
      ensures ProfileButtonStates() == (Normal, Normal, Normal)
    {
      clevoStatus := InitialView(ClevoFanControl).status;
      clevoStart, clevoStop := Normal, Normal;
      cpufreqStatus := InitialView(AutoCpuFreq).status;
      cpufreqStart, cpufreqStop := Normal, Normal;
      profileStatus := ProfileUnknown;
      batteryButton, quietButton, perfButton := Normal, Normal, Normal;
    }

    /** `update_service_statuses`, given what each of its three calls gave
        back. A call that raised, a RyzenAdj call that failed or printed no
        limits, leaves its widgets as they were. */
    method UpdateServiceStatuses(clevo: Run, cpufreq: Run, ryzenadj: Run)
      requires Valid()
      modifies this
      ensures Valid()
      ensures ClevoView() == Refresh(ClevoFanControl, old(ClevoView()), clevo)
      ensures CpufreqView() == Refresh(AutoCpuFreq, old(CpufreqView()), cpufreq)
      ensures ReadProfile(ryzenadj).None? ==>
        profileStatus == old(profileStatus) && ProfileButtonStates() == old(ProfileButtonStates())
      ensures ReadProfile(ryzenadj).Some? ==>
        var r := ReadProfile(ryzenadj).value;
        profileStatus == ProfileShown(r.profile, r.fast, r.slow)
        && ProfileButtonStates() == ProfileButtons(r.profile)
    {
      CheckClevo(clevo);
      CheckCpufreq(cpufreq);
      CheckProfile(ryzenadj);
    }

    /** The Clevo block: `systemctl is-active clevo-fancontrol`. */
    method CheckClevo(run: Run)
      requires Valid()
      modifies this
      ensures Valid()
      ensures ClevoView() == Refresh(ClevoFanControl, old(ClevoView()), run)
      ensures CpufreqView() == old(CpufreqView())
      ensures profileStatus == old(profileStatus) && ProfileButtonStates() == old(ProfileButtonStates())
    {
      if run.Exited? {
        var active := Strip(run.stdout) == ActiveWord;
        if active {
          clevoStatus := StatusLabel(ClevoFanControl, true);
          clevoStart := Disabled;
          clevoStop := Normal;
        } else {
          clevoStatus := StatusLabel(ClevoFanControl, false);
          clevoStart := Normal;
          clevoStop := Disabled;
        }
      }
    }

    /** The Auto-CPUFreq block: `systemctl is-active auto-cpufreq`. */
    method CheckCpufreq(run: Run)
      requires Valid()
      modifies this
      ensures Valid()
      ensures CpufreqView() == Refresh(AutoCpuFreq, old(CpufreqView()), run)
      ensures ClevoView() == old(ClevoView())
      ensures profileStatus == old(profileStatus) && ProfileButtonStates() == old(ProfileButtonStates())
    {
      if run.Exited? {
        var active := Strip(run.stdout) == ActiveWord;
        if active {
          cpufreqStatus := StatusLabel(AutoCpuFreq, true);
          cpufreqStart := Disabled;
          cpufreqStop := Normal;
        } else {
          cpufreqStatus := StatusLabel(AutoCpuFreq, false);
          cpufreqStart := Normal;
          cpufreqStop := Disabled;
        }
      }
    }

    /** The RyzenAdj block: `sudo ryzenadj --info`, the two limits and the
        threshold chain on the fast one. */
    method CheckProfile(run: Run)
      requires Valid()
      modifies this
      ensures Valid()
      ensures ClevoView() == old(ClevoView()) && CpufreqView() == old(CpufreqView())
      ensures ReadProfile(run).None? ==>
        profileStatus == old(profileStatus) && ProfileButtonStates() == old(ProfileButtonStates())
      ensures ReadProfile(run).Some? ==>
        var r := ReadProfile(run).value;
        profileStatus == ProfileShown(r.profile, r.fast, r.slow)
        && ProfileButtonStates() == ProfileButtons(r.profile)
    {
      if run.Exited? && run.code == 0 {
        var fastMatch := ExtractLimit(run.stdout, FastLabel);
        var slowMatch := ExtractLimit(run.stdout, SlowLabel);
        if fastMatch.Some? && slowMatch.Some? {
          var fast, slow := fastMatch.value, slowMatch.value;
          var profile;
          if fast <= 15.0 {
            profile := Battery;
            batteryButton, quietButton, perfButton := Disabled, Normal, Normal;
          } else if fast <= 22.0 {
            profile := Quiet;
            batteryButton, quietButton, perfButton := Normal, Disabled, Normal;
          } else {
            profile := Performance;
            batteryButton, quietButton, perfButton := Normal, Normal, Disabled;
          }
          profileStatus := ProfileShown(profile, fast, slow);
        }
      }
    }
  }

  /** A service section as built, or as a status check left it. */
  predicate Settled(s: Service, v: ServiceView) {
    v == InitialView(s) || v == ActiveView(s, true) || v == ActiveView(s, false)
  }

  /** In a settled section whose status has been checked, Start and Stop
      differ; only the section as built has both enabled. */
  lemma SettledButtons(s: Service, v: ServiceView)
    requires Settled(s, v)
    ensures v.start == v.stop <==> v == InitialView(s)
    ensures v.start == Normal || v.stop == Normal
  {
  }

  /** Whatever the three calls give back, at most one profile button is
      disabled after an update, and if one is, it is the button of the
      profile on display. */
  lemma AtMostOneProfileDisabled(status: ProfileLabel, buttons: (ButtonState, ButtonState, ButtonState))
    requires status.ProfileUnknown? ==> buttons == (Normal, Normal, Normal)
    requires status.ProfileShown? ==> buttons == ProfileButtons(status.profile)
    ensures (if buttons.0 == Disabled then 1 else 0) + (if buttons.1 == Disabled then 1 else 0)
      + (if buttons.2 == Disabled then 1 else 0) == (if status.ProfileShown? then 1 else 0)
  {
    if status.ProfileShown? {
      ExactlyOneDisabled(status.profile);
    }
  }

  /** What `update_service_statuses` leaves on screen, read off a valid
      panel: in each service section at least one of Start and Stop is
      enabled, and they differ once the section has been checked; exactly
      one profile button is disabled while a profile is shown, none before. */
  lemma ValidPanelButtons(p: ControlPanel)
    requires p.Valid()
    ensures p.clevoStart == Normal || p.clevoStop == Normal
    ensures p.cpufreqStart == Normal || p.cpufreqStop == Normal
    ensures p.clevoStart == p.clevoStop <==> p.ClevoView() == InitialView(ClevoFanControl)
    ensures p.cpufreqStart == p.cpufreqStop <==> p.CpufreqView() == InitialView(AutoCpuFreq)
    ensures (if p.batteryButton == Disabled then 1 else 0) + (if p.quietButton == Disabled then 1 else 0)
      + (if p.perfButton == Disabled then 1 else 0) == (if p.profileStatus.ProfileShown? then 1 else 0)
  {
    SettledButtons(ClevoFanControl, p.ClevoView());
    SettledButtons(AutoCpuFreq, p.CpufreqView());
    AtMostOneProfileDisabled(p.profileStatus, p.ProfileButtonStates());
  }
}
